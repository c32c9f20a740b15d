/**
 * The guild picker in the sidebar: which guild the route selects, which one
 * the button shows, the search filter, and the open/focus state driven by
 * clicks and the keyboard.
 */
module GuildSelect {
  import opened Wrappers
  import opened JsString

  /** A guild as listed in the picker. */
  datatype Guild = Guild(id: string, name: string, iconUrl: Option<string>)

  const DashboardPrefix: string := "/dashboard/"

  /** "/dashboard/" + rest splits on '/' into "", "dashboard" and the segments of rest. */
  lemma SplitDashboardPath(rest: string)
    ensures Split(DashboardPrefix + rest, '/') == ["", "dashboard"] + Split(rest, '/')
  {
    assert DashboardPrefix + rest == "" + ['/'] + ("dashboard" + ['/'] + rest);
    SplitAfterSegment("", "dashboard" + ['/'] + rest, '/');
    SplitAfterSegment("dashboard", rest, '/');
  }

  /**
   * `pathname?.startsWith("/dashboard/") ? pathname.split("/")[2] : undefined`:
   * the text after "/dashboard/" up to the next '/' or the end.
   */
  function SelectedId(pathname: Option<string>): (r: Option<string>)
    ensures r.Some? <==> pathname.Some? && StartsWith(pathname.value, DashboardPrefix)
    ensures r.Some? ==>
      var rest := pathname.value[|DashboardPrefix|..];
      && StartsWith(rest, r.value)
      && '/' !in r.value
      && (|r.value| == |rest| || rest[|r.value|] == '/')
  {
    if pathname.Some? && StartsWith(pathname.value, DashboardPrefix) then
      var p := pathname.value;
      var rest := p[|DashboardPrefix|..];
      assert p == DashboardPrefix + rest;
      SplitDashboardPath(rest);
      SplitHead(rest, '/');
      Some(Split(p, '/')[2])
    else None
  }

  /** A string without the separator is a single segment. */
  lemma {:induction false} SplitNoSeparator(s: string, sep: char)
    requires sep !in s
    ensures Split(s, sep) == [s]
    decreases |s|
  {
    if s != [] {
      SplitNoSeparator(s[1..], sep);
      assert [s[0]] + s[1..] == s;
    }
  }

  /** A path "/dashboard/<id>" or "/dashboard/<id>/..." selects exactly `id`. */
  lemma SelectedIdOfGuildPath(id: string, tail: string)
    requires '/' !in id
    requires tail == [] || tail[0] == '/'
    ensures SelectedId(Some(DashboardPrefix + id + tail)) == Some(id)
  {
    var p := DashboardPrefix + id + tail;
    assert p[..|DashboardPrefix|] == DashboardPrefix;
    assert p == DashboardPrefix + (id + tail);
    SplitDashboardPath(id + tail);
    if tail == [] {
      assert id + tail == id;
      SplitNoSeparator(id, '/');
    } else {
      assert id + tail == id + ['/'] + tail[1..];
      SplitAfterSegment(id, tail[1..], '/');
    }
    assert Split(p, '/')[2] == Split(id + tail, '/')[0] == id;
  }

  /** Index of the first guild whose id is `id`. */
  function FindIndex(guilds: seq<Guild>, id: string): (r: Option<nat>)
    ensures r.Some? ==> r.value < |guilds| && guilds[r.value].id == id
    ensures r.Some? ==> forall j :: 0 <= j < r.value ==> guilds[j].id != id
    ensures r.None? ==> forall j :: 0 <= j < |guilds| ==> guilds[j].id != id
    decreases |guilds|
  {
    if guilds == [] then None
    else if guilds[0].id == id then Some(0)
    else
      match FindIndex(guilds[1..], id)
      case None => None
      case Some(k) => Some(k + 1)
  }

  /**
   * `guilds.find(g => g.id === selectedId) ?? guilds[0]`: the first guild the
   * route selects, else the first guild, absent only for an empty list.
   */
  function Current(guilds: seq<Guild>, selectedId: Option<string>): (r: Option<Guild>)
    ensures r.None? <==> guilds == []
    ensures r.Some? ==> r.value in guilds
    ensures selectedId.Some? && FindIndex(guilds, selectedId.value).Some? ==>
      r == Some(guilds[FindIndex(guilds, selectedId.value).value])
    ensures (selectedId.None? || FindIndex(guilds, selectedId.value).None?) && guilds != [] ==>
      r == Some(guilds[0])
  {
    var found := if selectedId.Some? then FindIndex(guilds, selectedId.value) else None;
    if found.Some? then Some(guilds[found.value])
    else if guilds != [] then Some(guilds[0])
    else None
  }

  // ----- search -----

  /** The normalised search text: `q.trim().toLowerCase()`. */
  function Needle(q: string): string
  {
    ToLower(Trim(q))
  }

  /** A guild matches when its lower-cased name or id contains the needle. */
  predicate Matches(g: Guild, needle: string)
  {
    Includes(ToLower(g.name), needle) || Includes(ToLower(g.id), needle)
  }

  /** `a` is `b` with some elements dropped and the rest kept in order. */
  ghost predicate IsSubsequence<T>(a: seq<T>, b: seq<T>)
    decreases |b|
  {
    if a == [] then true
    else if b == [] then false
    else (a[0] == b[0] && IsSubsequence(a[1..], b[1..])) || IsSubsequence(a, b[1..])
  }

  /** `guilds.filter(g => Matches(g, needle))`. */
  function FilterMatching(guilds: seq<Guild>, needle: string): (r: seq<Guild>)
    ensures |r| <= |guilds|
    ensures IsSubsequence(r, guilds)
    ensures forall g :: g in r <==> g in guilds && Matches(g, needle)
    decreases |guilds|
  {
    if guilds == [] then []
    else
      var rest := FilterMatching(guilds[1..], needle);
      assert forall g :: g in guilds <==> g == guilds[0] || g in guilds[1..];
      if Matches(guilds[0], needle) then
        assert ([guilds[0]] + rest)[1..] == rest;
        [guilds[0]] + rest
      else rest
  }

  /** `filter` keeps every matching copy: each matching guild as often as in the list, others never. */
  lemma {:induction false} FilterMatchingCounts(guilds: seq<Guild>, needle: string)
    ensures forall g ::
      multiset(FilterMatching(guilds, needle))[g] == if Matches(g, needle) then multiset(guilds)[g] else 0
    decreases |guilds|
  {
    if guilds != [] {
      FilterMatchingCounts(guilds[1..], needle);
      assert guilds == [guilds[0]] + guilds[1..];
      assert multiset(guilds) == multiset{guilds[0]} + multiset(guilds[1..]);
    }
  }

  /** The list the picker shows for query `q`: all guilds for a blank query. */
  function Filtered(guilds: seq<Guild>, q: string): (r: seq<Guild>)
    ensures Needle(q) == "" ==> r == guilds
    ensures |r| <= |guilds|
  {
    var s := Needle(q);
    if s == "" then guilds else FilterMatching(guilds, s)
  }

  /**
   * The shown list keeps the guilds' order and holds exactly those whose
   * lower-cased name or id contains the trimmed, lower-cased query.
   */
  lemma FilteredSpec(guilds: seq<Guild>, q: string)
    ensures IsSubsequence(Filtered(guilds, q), guilds)
    ensures forall g :: g in Filtered(guilds, q) <==> g in guilds && Matches(g, Needle(q))
    ensures forall g ::
      multiset(Filtered(guilds, q))[g] == if Matches(g, Needle(q)) then multiset(guilds)[g] else 0
  {
    if Needle(q) == "" {
      EverythingMatchesBlank(guilds);
      SubsequenceRefl(guilds);
    } else {
      FilterMatchingCounts(guilds, Needle(q));
    }
  }

  lemma EverythingMatchesBlank(guilds: seq<Guild>)
    ensures forall g :: g in guilds ==> Matches(g, "")
  {
    forall g | g in guilds ensures Matches(g, "") {
      IncludesTrivial(ToLower(g.name));
    }
  }

  lemma {:induction false} SubsequenceRefl<T>(a: seq<T>)
    ensures IsSubsequence(a, a)
    decreases |a|
  {
    if a != [] {
      SubsequenceRefl(a[1..]);
    }
  }

  /** The blank-query shortcut is only an optimisation: filtering by "" keeps every guild. */
  lemma {:induction false} FilterBlankKeepsAll(guilds: seq<Guild>)
    ensures FilterMatching(guilds, "") == guilds
    decreases |guilds|
  {
    if guilds != [] {
      IncludesTrivial(ToLower(guilds[0].name));
      FilterBlankKeepsAll(guilds[1..]);
    }
  }

  // ----- focus arithmetic -----

  /** ArrowDown: `Math.min(i + 1, filtered.length - 1)`. */
  function FocusDown(i: int, len: nat): (r: int)
    ensures len > 0 && -1 <= i < len ==> 0 <= r < len
    ensures i + 1 < len ==> r == i + 1
    ensures i + 1 >= len ==> r == len - 1
  {
    if i + 1 <= len - 1 then i + 1 else len - 1
  }

  /** ArrowUp: `Math.max(i - 1, 0)`. */
  function FocusUp(i: int): (r: int)
    ensures r >= 0
    ensures i >= 1 ==> r == i - 1
    ensures i <= 1 ==> r == 0
  {
    if i - 1 >= 0 then i - 1 else 0
  }

  /** On a new list length: `Math.min(i, Math.max(len - 1, 0))`. */
  function Reclamp(i: int, len: nat): (r: int)
    ensures r <= i && (r == i || r == Bound(len))
    ensures r <= Bound(len)
    ensures i <= Bound(len) ==> r == i
  {
    if i <= Bound(len) then i else Bound(len)
  }

  /** The largest focus index the re-clamp allows: `Math.max(len - 1, 0)`. */
  function Bound(len: nat): nat
  {
    if len == 0 then 0 else len - 1
  }

  datatype Key = ArrowDown | ArrowUp | Enter | OtherKey

  /** The picker's state: search text, focused row and whether the list is open. */
  class GuildPicker {
    const guilds: seq<Guild>
    var q: string
    var focus: int
    var open: bool

    /** The list currently shown. */
    function Shown(): seq<Guild>
      reads this
    {
      Filtered(guilds, q)
    }

    /** Focus never drops below -1 and never exceeds what the re-clamp allows. */
    ghost predicate Valid()
      reads this
    {
      -1 <= focus <= Bound(|Shown()|)
    }

    /** Mount: closed, empty query, focus 0 (the mount-time re-clamp keeps 0). */
    constructor (guilds: seq<Guild>)
      ensures Valid()
      ensures this.guilds == guilds && q == "" && focus == 0 && !open
    {
      this.guilds := guilds;
      q := "";
      focus := Reclamp(0, |Filtered(guilds, "")|);
      open := false;
    }

    /** Typing in the search box; the focus is re-clamped when the shown length changes. */
    method SetQuery(q': string)
      requires Valid()
      modifies this
      ensures Valid()
      ensures q == q' && open == old(open)
      ensures focus == if |Filtered(guilds, q')| != |old(Shown())|
                       then Reclamp(old(focus), |Filtered(guilds, q')|) else old(focus)
    {
      var before := |Shown()|;
      q := q';
      var after := |Shown()|;
      if after != before {
        focus := Reclamp(focus, after);
      }
    }

    /** The toggle button: opens or closes the list, only when there are guilds. */
    method Toggle()
      modifies this
      ensures open == if guilds != [] then !old(open) else old(open)
      ensures q == old(q) && focus == old(focus)
    {
      if |guilds| > 0 {
        open := !open;
      }
    }

    /** The route changed: the list closes. */
    method PathnameChanged()
      modifies this
      ensures !open && q == old(q) && focus == old(focus)
    {
      open := false;
    }

    /**
     * A key pressed inside the picker. Ignored while closed; the arrows move
     * the focus; Enter on a focused row navigates to that guild and closes.
     * Returns the route pushed, if any.
     */
    method KeyDown(key: Key) returns (target: Option<string>)
      requires Valid()
      modifies this
      ensures Valid() && q == old(q)
      ensures !old(open) ==> target.None? && focus == old(focus) && open == old(open)
      ensures old(open) && key == ArrowDown ==>
        target.None? && open && focus == FocusDown(old(focus), |Shown()|)
      ensures old(open) && key == ArrowUp ==>
        target.None? && open && focus == FocusUp(old(focus))
      ensures old(open) && key == Enter ==>
        focus == old(focus) &&
        if 0 <= old(focus) < |Shown()|
        then target == Some(DashboardPrefix + Shown()[old(focus)].id) && !open
        else target.None? && open
      ensures old(open) && key == OtherKey ==> target.None? && focus == old(focus) && open
    {
      target := None;
      if !open {
        return;
      }
      var shown := Shown();
      if key == ArrowDown {
        focus := FocusDown(focus, |shown|);
      }
      if key == ArrowUp {
        focus := FocusUp(focus);
      }
      if key == Enter && 0 <= focus < |shown| {
        target := Go(shown[focus].id);
      }
    }

    /** Clicking a row of the open list. */
    method Choose(i: nat) returns (target: string)
      requires open && i < |Shown()|
      modifies this
      ensures target == DashboardPrefix + old(Shown())[i].id
      ensures !open && q == old(q) && focus == old(focus)
    {
      var id := Shown()[i].id;
      var t := Go(id);
      target := t.value;
    }

    /** `go(id)`: close the list and push "/dashboard/<id>". */
    method Go(id: string) returns (target: Option<string>)
      modifies this
      ensures target == Some(DashboardPrefix + id)
      ensures !open && q == old(q) && focus == old(focus)
    {
      open := false;
      target := Some(DashboardPrefix + id);
    }
  }

  /**
   * ArrowDown on an empty list leaves the focus at -1, and the re-clamp only
   * lowers the focus, so no row is focused until an arrow key is pressed again.
   */
  lemma FocusLostAfterEmptyList(len: nat)
    ensures FocusDown(0, 0) == -1 && FocusDown(-1, 0) == -1
    ensures Reclamp(-1, len) == -1
  {
  }

  /** With a non-empty list and the focus on a row, the arrows keep the focus on a row. */
  lemma ArrowsKeepFocusOnARow(i: int, len: nat)
    requires len > 0 && 0 <= i < len
    ensures 0 <= FocusDown(i, len) < len && 0 <= FocusUp(i) < len
  {
  }
}
