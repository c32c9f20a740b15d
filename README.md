# PhenixMG dashboard — decision logic in Dafny

The dashboard lets the operators of a Discord community bot configure their
guilds. This project models the small pieces of logic that run in the
dashboard itself, and proves their properties:

- **Settings form** (`settingsform.dfy`, module `SettingsForm`). The edited
  settings record and the per-field updater `set(k)(v)`. Normalisation resets
  the four required channels to `""` unless they are in the current channel
  list. The posted payload blanks the five "The Division 2" fields when that
  section is hidden. The section's initial visibility comes from the initial
  values. The form's saving / message / error state is a class. `submit` is
  split at its `await`: `BeginSubmit` returns the URL and the payload, and
  `CompleteSubmit` takes the request's outcome.
- **Guild overview** (`guildstats.dfy`, module `GuildStats`). The `cls`
  class-name joiner, the icon and banner CDN URLs, and the initial-letter
  fallback. Boost-tier progress uses the thresholds `[0, 2, 7, 14]`, and there
  is an online percentage. `Math.round(a / b * 100)` on non-negative integers
  is modelled exactly as `(200a + b) / (2b)`.
- **Guild picker** (`guildselect.dfy`, module `GuildSelect`). The route's
  selected guild, the "current" guild with its first-guild fallback, and the
  trimmed, lower-cased substring search. A class `GuildPicker` holds the
  query, the focused row and the open flag, updated by typing, the arrows,
  Enter, clicks, the toggle button and route changes.
- **Sidebar** (`sidebar.dfy`, module `Sidebar`). The guild the links point at,
  the four links, the prefix-based highlight, and the sign-in / sign-out
  button.
- **Route guard** (`middleware.dfy`, module `Middleware`). It lets
  `/api/auth…` through, redirects `/dashboard` and `/dashboard/…` to
  `/signed-out` without a session token, and lets everything else through.
- **Session token** (`auth.dfy`, module `Auth`). The Discord profile guard and
  the `jwt` callback: the sign-in copy, then the refresh condition (expiry within
  60 s), then the three refresh outcomes (ok, not ok, thrown). The callback
  mutates the token object field by field, so it is a method of class
  `JwtToken`, proved equal to the pure function `JwtCallback`. It also covers
  the `session` callback's projection.
- **Dashboard layout** (`dashboardlayout.dfy`, module `DashboardLayout`). It
  redirects when there is no user id. Otherwise it maps the stored profiles
  to picker entries, in order.
- Helpers: `wrappers.dfy` (`Option`, i.e. `undefined`/`null` and `??`), and
  `jsstring.dfy`, the JavaScript string operations used: `startsWith`,
  `includes`, `split` on one character, `trim`, ASCII `toLowerCase` /
  `toUpperCase`, and `String(n)`.

Behaviour of the code as written, stated by lemmas:

- An ArrowDown on an empty result list sets the focus to -1. The re-clamp on
  a length change never raises it again, so no row is focused until the next
  arrow key (`GuildSelect.FocusLostAfterEmptyList`).
- On the path `/dashboard/` the selected id is `""`. The sidebar's `??` keeps
  that empty id instead of falling back to the first guild
  (`Sidebar.EmptySegmentIsKept`).
- Prefix highlighting marks the Dashboard link active on every page of the
  guild (`Sidebar.DashboardActiveOnGuildPages`, `Sidebar.SettingsPageHighlights`).

## Model

| member | source | states |
|---|---|---|
| `JsString.IncludesIff` | src/components/GuildSelect.tsx:43 | `includes` holds exactly when the needle occurs at some position of the string (both directions) |
| `JsString.TrimSlice` | src/components/GuildSelect.tsx:40 | `trim` returns a slice of the input, cut only at trimmed characters, with no trimmed character at either end |
| `JsString.TrimIdempotent` | src/components/GuildSelect.tsx:40 | trimming a trimmed string changes nothing |
| `JsString.ToLower` | src/components/GuildSelect.tsx:40-43 | same length; ASCII capitals become lower case, every other character is kept |
| `JsString.ToLowerIdempotent` | src/components/GuildSelect.tsx:40-43 | lower-casing twice is lower-casing once |
| `JsString.UpperChar` | src/components/GuildStats.tsx:44 | ASCII lower-case letters become capitals; other characters are kept |
| `JsString.Split` | src/components/GuildSelect.tsx:14 | `split("/")` yields at least one segment and no segment contains the separator |
| `JsString.JoinSplit` | src/components/GuildSelect.tsx:14 | joining the segments with the separator gives back the string |
| `JsString.SplitHead` | src/components/GuildSelect.tsx:14 | the first segment is the longest separator-free prefix |
| `JsString.SplitAfterSegment` | src/components/GuildSelect.tsx:14 | a separator-free head followed by the separator splits off as exactly one segment |
| `JsString.NatToString` | src/components/SettingsForm.tsx:223 | `String(status)` is non-empty decimal digits with no leading zero, and reads back as the number |
| `GuildStats.ClsIsFilterJoin` | src/components/GuildStats.tsx:18-20 | `cls` equals the kept (truthy) entries joined with single spaces, and `""` when none is kept |
| `GuildStats.ClsEmptyIff` | src/components/GuildStats.tsx:18-20 | `cls` is empty exactly when every entry is false, null, undefined or `""` |
| `GuildStats.ClsAppend` | src/components/GuildStats.tsx:18-20 | `cls` of two argument lists is their results joined by one space, or the non-empty one |
| `GuildStats.ClsSingle` | src/components/GuildStats.tsx:18-20 | one kept entry gives itself, a falsy one gives `""` |
| `GuildStats.Cls` | src/components/GuildStats.tsx:18-20 | the definition of `cls`: skip a falsy entry, otherwise put it before the rest with one space between them. Its properties are the `Cls*` lemmas |
| `GuildStats.Kept` | src/components/GuildStats.tsx:19 | `filter(Boolean)` keeps only non-empty strings |
| `GuildStats.KeptAppend` | src/components/GuildStats.tsx:19 | filtering two argument lists filters each and keeps their order |
| `GuildStats.KeptSingle` | src/components/GuildStats.tsx:19 | a single entry survives iff it is a non-empty string; with `KeptAppend` this fixes the filter: every truthy entry is kept, in order |
| `GuildStats.IconUrl` | src/components/GuildStats.tsx:23-25 | an icon URL exists iff the icon hash is a non-empty string, and it is the CDN icon address for id and hash |
| `GuildStats.BannerUrl` | src/components/GuildStats.tsx:26-28 | a banner URL exists iff the banner hash is a non-empty string, and it is the CDN banner address |
| `GuildStats.InitialLetter` | src/components/GuildStats.tsx:44 | one character: the upper-cased first character of the name, or `"?"` when the name is missing or empty |
| `GuildStats.RoundPercent` | src/components/GuildStats.tsx:40-41 | the result is the nearest integer to 100a/b, with halves rounded up (`200a - b < 2br <= 200a + b`) |
| `GuildStats.RoundPercentExact` | src/components/GuildStats.tsx:40 | a whole percentage is returned unchanged |
| `GuildStats.RoundPercentMonotone` | src/components/GuildStats.tsx:40 | rounding never decreases as the numerator grows |
| `GuildStats.RoundPercentFull` | src/components/GuildStats.tsx:40 | a numerator at or above the denominator gives at least 100 |
| `GuildStats.RoundPercentAtMostFull` | src/components/GuildStats.tsx:41 | a numerator at or below the denominator gives at most 100 |
| `GuildStats.Boosts` | src/components/GuildStats.tsx:30-40 | tier and boosts default to 0. The next threshold is 2, 7, 14 for tier 0, 1, 2 and up. `atMax` iff tier >= 3, and then `toNext = 0` and `pctNext = 100`. Otherwise `toNext` is `next - boosts`, floored at 0. `pctNext <= 100`, and it is 100 once boosts reach the threshold |
| `GuildStats.BoostsBelowNext` | src/components/GuildStats.tsx:39-40 | below the threshold the bar is the rounded share of it, and stays under 100 |
| `GuildStats.NoTieAtThresholds` | src/components/GuildStats.tsx:36-40 | for the divisors 2, 7 and 14, 100·boosts/next never ends in exactly .5 |
| `GuildStats.PctOnline` | src/components/GuildStats.tsx:32-41 | 0 for a guild with no (or unknown) members, otherwise the rounded share online, and at most 100 while presence does not exceed members |
| `GuildSelect.SelectedId` | src/components/GuildSelect.tsx:13-14 | a value iff the path starts with `/dashboard/`. The value is the text after that prefix, up to the next `/` or the end |
| `GuildSelect.SelectedIdOfGuildPath` | src/components/GuildSelect.tsx:13-14 | `/dashboard/<id>` and `/dashboard/<id>/…` select exactly `<id>` |
| `GuildSelect.FindIndex` | src/components/GuildSelect.tsx:17 | `find` returns the first index whose id matches, or nothing when no guild matches |
| `GuildSelect.Current` | src/components/GuildSelect.tsx:16-19 | absent iff the list is empty. It is the first guild with the selected id if there is one, else the first guild |
| `GuildSelect.Needle` | src/components/GuildSelect.tsx:40 | the search text is `q.trim().toLowerCase()` |
| `GuildSelect.Matches` | src/components/GuildSelect.tsx:43 | the filter's test: the lower-cased name or the lower-cased id includes the needle |
| `GuildSelect.FilterMatching` | src/components/GuildSelect.tsx:42-44 | the result is an order-preserving subsequence. It holds exactly the guilds whose lower-cased name or id contains the needle |
| `GuildSelect.FilterMatchingCounts` | src/components/GuildSelect.tsx:42-44 | every matching guild is kept as many times as it occurs, and a non-matching one never; with the subsequence clause this fixes the result |
| `GuildSelect.Filtered` | src/components/GuildSelect.tsx:39-45 | a blank query (after trimming) returns the list unchanged; the result is never longer than the list |
| `GuildSelect.FilteredSpec` | src/components/GuildSelect.tsx:39-45 | the shown list is an order-preserving subsequence. Each guild whose lower-cased name or id contains the trimmed, lower-cased query appears as often as in the list, and no other guild appears |
| `GuildSelect.FilterBlankKeepsAll` | src/components/GuildSelect.tsx:40-44 | filtering by the empty needle keeps every guild, so the blank-query shortcut agrees with the filter |
| `GuildSelect.FocusDown` | src/components/GuildSelect.tsx:114 | ArrowDown moves to the next row, stops at the last one, and stays on a row when it starts on one of a non-empty list |
| `GuildSelect.FocusUp` | src/components/GuildSelect.tsx:118 | ArrowUp moves to the previous row and stops at 0 |
| `GuildSelect.Bound` | src/components/GuildSelect.tsx:70 | the highest focus the re-clamp allows: `max(len - 1, 0)` |
| `GuildSelect.Reclamp` | src/components/GuildSelect.tsx:70 | the focus becomes `min(i, max(len-1, 0))`. It only ever lowers the focus, and keeps it when already in bounds |
| `GuildSelect.FocusLostAfterEmptyList` | src/components/GuildSelect.tsx:70-114 | ArrowDown on an empty list gives -1, and the re-clamp keeps -1 |
| `GuildSelect.ArrowsKeepFocusOnARow` | src/components/GuildSelect.tsx:111-119 | on a non-empty list with the focus on a row, both arrows keep it on a row |
| `GuildSelect.GuildPicker.constructor` | src/components/GuildSelect.tsx:21-23 | starts closed, with an empty query and focus 0 |
| `GuildSelect.GuildPicker.SetQuery` | src/components/GuildSelect.tsx:68-71 | stores the query. The focus is re-clamped only when the shown length changes, and it stays within -1 and the re-clamp bound |
| `GuildSelect.GuildPicker.Toggle` | src/components/GuildSelect.tsx:127 | flips `open` only when there are guilds |
| `GuildSelect.GuildPicker.PathnameChanged` | src/components/GuildSelect.tsx:64-66 | a route change closes the list |
| `GuildSelect.GuildPicker.KeyDown` | src/components/GuildSelect.tsx:110-124 | keys are ignored while closed; the arrows move the focus; Enter navigates to the focused guild and closes only when a row holds the focus |
| `GuildSelect.GuildPicker.Choose` | src/components/GuildSelect.tsx:172 | clicking a row navigates to that guild's page and closes the list |
| `GuildSelect.GuildPicker.Go` | src/components/GuildSelect.tsx:73-76 | `go(id)` closes the list and targets `/dashboard/<id>` |
| `Sidebar.CurrentId` | src/components/Sidebar.tsx:13-15 | the selected id when the route has one, else the first guild's id, else `""` |
| `Sidebar.NavItems` | src/components/Sidebar.tsx:54-57 | four links `/dashboard/<current>` followed by `""`, `/settings`, `/raids`, `/moderation`, in that order |
| `Sidebar.IsActive` | src/components/Sidebar.tsx:18 | a link is highlighted when the path is present and starts with its href |
| `Sidebar.DashboardActiveOnGuildPages` | src/components/Sidebar.tsx:17-18 | on every path under `/dashboard/` the Dashboard link is highlighted |
| `Sidebar.SettingsPageHighlights` | src/components/Sidebar.tsx:54-57 | on `/dashboard/<c>/settings` the Dashboard and Settings links are active and the other two are not |
| `Sidebar.EmptySegmentIsKept` | src/components/Sidebar.tsx:13-15 | on `/dashboard/` the current id is `""` whatever the guilds |
| `Sidebar.AuthButtonFor` | src/components/Sidebar.tsx:62-76 | sign-out (to `/signed-out`) iff the status is authenticated, else sign-in with Discord |
| `Middleware.IsProtected` | middleware.ts:18-20 | a path is protected when it is `/dashboard` or starts with `/dashboard/` |
| `Middleware.Guard` | middleware.ts:6-30 | `/api/auth…` passes, whatever the token. Otherwise it redirects iff the path is protected and there is no token. The redirect is the request URL with only pathname and search changed |
| `Middleware.RedirectTargetPasses` | middleware.ts:22-27 | the redirect keeps origin and fragment, and its target is let through even without a token |
| `Middleware.ProtectionIsBySegment` | middleware.ts:18-20 | `/dashboard` and paths under `/dashboard/` are protected; `/dashboardx` is not |
| `Middleware.TokenAlwaysPasses` | middleware.ts:29 | with a token every request passes |
| `Auth.IsDiscordProfile` | src/lib/auth.ts:40-50 | the profile guard: a profile is present and its `id` and `username` are strings |
| `Auth.UserOf` | src/lib/auth.ts:79-85 | the user copied from a valid profile: id, username, discriminator, global name, and the avatar or `null` |
| `Auth.SignIn` | src/lib/auth.ts:40-86 | copies the access and refresh tokens. `expiresAt` becomes `expires_at*1000` only when that is a number. The token type defaults to "Bearer". The user is set only for a valid profile |
| `Auth.WillExpireSoon` | src/lib/auth.ts:89-90 | the expiry is present, non-zero and less than 60 000 ms after `now` (or already past) |
| `Auth.ShouldRefresh` | src/lib/auth.ts:89-91 | a refresh is attempted iff the token expires soon and holds a non-empty refresh token |
| `Auth.JwtCallback` | src/lib/auth.ts:63-126 | the whole callback as a function: the sign-in branch when there is an account, then `ApplyRefresh` iff `ShouldRefresh`; the lemmas below state its properties |
| `Auth.ApplyRefresh` | src/lib/auth.ts:103-122 | ok: new access token, type defaulting to "Bearer", and `expiresAt = later + expires_in*1000`. There the refresh token is replaced only by a non-empty one. Not ok: the four credentials are removed. Thrown: no change. In all three cases the user is untouched |
| `Auth.NoRefreshNoChange` | src/lib/auth.ts:89-91 | without sign-in and with no refresh due, the token is unchanged whatever the network outcome |
| `Auth.ThrownRefreshKeepsToken` | src/lib/auth.ts:120-122 | a thrown refresh leaves the token as the sign-in branch left it |
| `Auth.RejectedRefreshIsFinal` | src/lib/auth.ts:114-119 | a rejected refresh leaves only the user, and no later call attempts another refresh |
| `Auth.RefreshedTokenIsFresh` | src/lib/auth.ts:110-112 | after a refresh with a lifetime of at least 60 s, the token is not due again at the refresh time |
| `Auth.SignInCanRefreshAtOnce` | src/lib/auth.ts:63-91 | a sign-in whose account expires within a minute and carries a refresh token is refreshed in the same call |
| `Auth.SessionOf` | src/lib/auth.ts:128-135 | the session gets exactly the access token, token type and user |
| `Auth.SessionHidesRefreshState` | src/lib/auth.ts:129-133 | the session does not depend on the refresh token or the expiry |
| `Auth.JwtToken.Jwt` | src/lib/auth.ts:63-126 | the field-by-field callback leaves the token equal to `JwtCallback` of the old token |
| `DashboardLayout.UserIdOf` | src/app/dashboard/layout.tsx:10 | `session?.discord?.user?.id` is present iff the session has a user, and is that user's id |
| `DashboardLayout.Begin` | src/app/dashboard/layout.tsx:13-15 | a missing or empty user id redirects to `/signed-out`; any other queries that user's profiles |
| `DashboardLayout.SignedInUserIsQueried` | src/app/dashboard/layout.tsx:10-18 | a session user with a non-empty id goes on to the profile query |
| `DashboardLayout.GuildEntries` | src/app/dashboard/layout.tsx:24-28 | one entry per profile, in order. Each entry has the profile's guild id, its display name, and no icon |
| `DashboardLayout.GuildEntriesAppend` | src/app/dashboard/layout.tsx:24 | the listing of concatenated profiles is the concatenation of the listings |
| `DashboardLayout.DisplayName` | src/app/dashboard/layout.tsx:26 | the entry name is `p.guild?.name ?? p.guildId` |
| `DashboardLayout.DisplayNameFallback` | src/app/dashboard/layout.tsx:26 | the stored name when there is one (even `""`), otherwise the guild id |
| `SettingsForm.With` | src/components/SettingsForm.tsx:180-181 | `{ ...s, [k]: v }` for each of the nineteen keys, for a value of the key's type |
| `SettingsForm.WithChangesOneField` | src/components/SettingsForm.tsx:180-181 | `set(k)(v)` makes key `k` hold `v` and leaves every other key unchanged |
| `SettingsForm.WithOwnValue` | src/components/SettingsForm.tsx:180-181 | setting a key to its current value changes nothing |
| `SettingsForm.ChannelIds` | src/components/SettingsForm.tsx:184 | an id is in the set iff some listed channel has it |
| `SettingsForm.KeepIfListed` | src/components/SettingsForm.tsx:188 | `channelIds.has(id) ? id : ""` |
| `SettingsForm.Normalize` | src/components/SettingsForm.tsx:185-196 | `normalized`: the state with each of the four required channels passed through `KeepIfListed` |
| `SettingsForm.NormalizeSpec` | src/components/SettingsForm.tsx:185-196 | each required channel is kept if listed and becomes `""` otherwise; every other field is unchanged |
| `SettingsForm.NormalizedRequiredAreListed` | src/components/SettingsForm.tsx:188-193 | after normalisation every required channel is `""` or a listed channel id |
| `SettingsForm.NormalizeIdempotent` | src/components/SettingsForm.tsx:185-196 | normalising twice is normalising once |
| `SettingsForm.Payload` | src/components/SettingsForm.tsx:204-213 | the posted record: `normalized` when the section is shown, else `normalized` with its five section fields set to `""` |
| `SettingsForm.PayloadSpec` | src/components/SettingsForm.tsx:204-213 | with the section shown the payload is `normalized`. Hidden, exactly the four section channels and the raid-manager role become `""` |
| `SettingsForm.PayloadRequiredAreListed` | src/components/SettingsForm.tsx:184-213 | whatever the visibility, the posted required channels are `""` or listed |
| `SettingsForm.DefaultTD2` | src/components/SettingsForm.tsx:155-160 | `defaultTD2`: true when one of the five section fields is initially non-empty |
| `SettingsForm.DefaultTD2Spec` | src/components/SettingsForm.tsx:155-160 | the section starts visible iff one of its five fields is initially non-empty |
| `SettingsForm.HiddenSectionPostsBlank` | src/components/SettingsForm.tsx:204-213 | when the section starts hidden, blanking it posts what `normalized` already holds |
| `SettingsForm.SettingsFormState.constructor` | src/components/SettingsForm.tsx:149-161 | the state starts as the initial record, not saving, with no message or error, and the section's visibility starts as `defaultTD2` |
| `SettingsForm.SettingsFormState.Set` | src/components/SettingsForm.tsx:180-181 | the record becomes `set(k)(v)` of the old one; nothing else changes |
| `SettingsForm.SettingsFormState.ToggleTD2` | src/components/SettingsForm.tsx:251 | the switch flips the section's visibility only |
| `SettingsForm.SettingsFormState.BeginSubmit` | src/components/SettingsForm.tsx:198-219 | marks saving and clears both messages. It posts to `/api/guilds/<id>/settings` the payload built from `normalized` and the visibility |
| `SettingsForm.SettingsFormState.CompleteSubmit` | src/components/SettingsForm.tsx:221-231 | success sets the saved message. Not ok sets the body's `error` or `HTTP <status>`. Thrown sets the error's message or the fallback text. Saving always ends |
| `SettingsForm.SubmitOnce` | src/components/SettingsForm.tsx:198-231 | a whole submit posts the payload and leaves exactly one of message and error set |

## Left out

- The server-side route that validates and stores the payload
  (src/app/api/guilds/[guildId]/settings/route.ts) is not part of this model.
  Its schema coercion and transactional upsert are only context here.
- The `fetch` in `submit` and the token refresh request are not modelled.
  Their outcome is a parameter (`SubmitOutcome`, `RefreshOutcome`: ok, not ok,
  thrown). Decoding JSON is not modelled: a non-OK body gives an optional
  `error` string, and a non-string `error` value is not modelled.
- `Date.now()` is two parameters of the token callback. `now` is read before
  the refresh condition and `later` after the response.
- `getToken` and `getServerSession` are not modelled. The guard takes whether
  a token is present; the layout takes the session and, after the query, the
  profiles.
- The Prisma query and its `guildId` ascending order are not modelled. The
  listing keeps whatever order the store returns.
- `localStorage` / `sessionStorage` persistence of the section visibility and
  the search text is not modelled.
- The document listeners (outside click and Escape close the picker) are not
  modelled.
- `router.push` / `prefetch` are not modelled. The picker returns the route
  it would push. The signed-out page's timed redirect is not modelled.
- `Number(v)` parsing in the number inputs is not modelled. Numeric fields
  are `Option<int>`, so NaN and fractions are not modelled.
- Floating point is not modelled. Percentages are exact integer rounding.
  For the boost thresholds no tie can arise (`GuildStats.NoTieAtThresholds`).
  For the online share, a float product just below a .5 tie could round down
  where the model rounds up.
- `CircleCard`'s `Math.PI` arithmetic, `toLocaleString` and all JSX, framer
  animation and Tailwind classes are presentation, so they are not modelled.
  This includes the disabled look of the sidebar links when there are no
  guilds.
- `toUpperCase` / `toLowerCase` are modelled on ASCII letters only. Unicode
  case mapping is not modelled, and that includes characters that upper-case
  to several characters.
- GuildStats.InitialLetter: Dafny strings are sequences of Unicode scalar
  values, while JavaScript's `name?.[0]` takes the first UTF-16 code unit. For
  a name that starts outside the Basic Multilingual Plane (an emoji such as
  "🔥"), the source shows half of a surrogate pair and the model the whole
  character.
- Milliseconds and counts are unbounded integers. JavaScript's 53-bit number
  precision is not modelled.
- The middleware's `config.matcher` is not modelled. The guard is modelled
  for every path.
- The token's other claims (name, email, subject) are not modelled. The
  callback does not touch them.
- Profile fields `discriminator` and `global_name` are modelled as optional
  strings. Their runtime type is not checked by the source either.
- The button's `disabled={saving}` is not modelled. The form posts without
  checking that the required channels are filled in, as the source does, and
  `BeginSubmit` also accepts a second submit while one is still saving.
- src/app/page.tsx, src/app/layout.tsx, src/lib/fonts.ts,
  src/components/DashboardButton.tsx, src/app/dashboard/page.tsx and
  src/app/ok/page.tsx are trivial or presentational, so they are not modelled.
