/**
 * The guild overview card: which CDN images to show, the initial-letter
 * fallback, the server-boost tier progress and the share of members online.
 * All inputs are the guild record fetched from Discord; nothing is mutated.
 */
module GuildStats {
  import opened Wrappers
  import JsString

  /** The guild record as fetched from Discord; every count may be missing. */
  datatype GuildInfo = GuildInfo(
    id: string,
    name: Option<string>,
    icon: Option<string>,
    banner: Option<string>,
    premiumTier: Option<nat>,
    premiumSubscriptionCount: Option<nat>,
    approximateMemberCount: Option<nat>,
    approximatePresenceCount: Option<nat>)

  // ----- class-name joiner -----

  /** One argument of `cls`: `false`, `null` and `undefined` are all `Falsy`. */
  datatype ClassPart = Falsy | Text(s: string)

  predicate KeptPart(p: ClassPart)
  {
    p.Text? && p.s != ""
  }

  /** `cls(...v)`: drop falsy entries (including ""), join the rest with single spaces. */
  function Cls(v: seq<ClassPart>): (r: string)
    decreases |v|
  {
    if v == [] then ""
    else
      var tail := Cls(v[1..]);
      if !KeptPart(v[0]) then tail
      else if tail == "" then v[0].s
      else v[0].s + " " + tail
  }

  /** `Cls` is empty exactly when no entry is kept. */
  lemma {:induction false} ClsEmptyIff(v: seq<ClassPart>)
    ensures Cls(v) == "" <==> forall k :: 0 <= k < |v| ==> !KeptPart(v[k])
    decreases |v|
  {
    if v != [] {
      ClsEmptyIff(v[1..]);
      assert forall k :: 1 <= k < |v| ==> v[k] == v[1..][k - 1];
    }
  }

  /** Joining two argument lists joins their results with one space, unless either is empty. */
  lemma {:induction false} ClsAppend(v: seq<ClassPart>, w: seq<ClassPart>)
    ensures Cls(v + w) ==
      if Cls(v) == "" then Cls(w)
      else if Cls(w) == "" then Cls(v)
      else Cls(v) + " " + Cls(w)
    decreases |v|
  {
    if v == [] {
      assert v + w == w;
    } else {
      assert (v + w)[1..] == v[1..] + w;
      ClsAppend(v[1..], w);
    }
  }

  /** A kept entry contributes itself; a falsy one nothing. */
  lemma ClsSingle(p: ClassPart)
    ensures Cls([p]) == if KeptPart(p) then p.s else ""
  {
    assert [p][1..] == [];
  }

  /** `v.filter(Boolean)`: the kept entries' strings, in order. */
  function Kept(v: seq<ClassPart>): (r: seq<string>)
    ensures forall k :: 0 <= k < |r| ==> r[k] != ""
    decreases |v|
  {
    if v == [] then []
    else if KeptPart(v[0]) then [v[0].s] + Kept(v[1..])
    else Kept(v[1..])
  }

  /** Filtering two argument lists filters each, in order. */
  lemma {:induction false} KeptAppend(v: seq<ClassPart>, w: seq<ClassPart>)
    ensures Kept(v + w) == Kept(v) + Kept(w)
    decreases |v|
  {
    if v == [] {
      assert v + w == w;
    } else {
      assert (v + w)[1..] == v[1..] + w;
      KeptAppend(v[1..], w);
    }
  }

  /** A kept entry survives the filter; a falsy one is dropped. */
  lemma KeptSingle(p: ClassPart)
    ensures Kept([p]) == if KeptPart(p) then [p.s] else []
  {
    assert [p][1..] == [];
  }

  /** `cls` is `filter(Boolean).join(" ")`. */
  lemma {:induction false} ClsIsFilterJoin(v: seq<ClassPart>)
    ensures Kept(v) == [] ==> Cls(v) == ""
    ensures Kept(v) != [] ==> Cls(v) == JsString.Join(Kept(v), ' ')
    decreases |v|
  {
    if v != [] {
      ClsIsFilterJoin(v[1..]);
      var rest := Kept(v[1..]);
      if KeptPart(v[0]) && rest != [] {
        JoinNonEmpty(rest);
        assert ([v[0].s] + rest)[1..] == rest;
      }
    }
  }

  lemma JoinNonEmpty(parts: seq<string>)
    requires |parts| >= 1 && parts[0] != ""
    ensures JsString.Join(parts, ' ') != ""
  {
  }

  // ----- images and the initial letter -----

  /** `iconUrl`: a CDN address exactly when the guild has an icon hash. */
  function IconUrl(g: GuildInfo): (r: Option<string>)
    ensures r.Some? <==> Truthy(g.icon)
    ensures r.Some? ==> r.value == "https://cdn.discordapp.com/icons/" + g.id + "/" + g.icon.value + ".png?size=128"
  {
    if Truthy(g.icon)
    then Some("https://cdn.discordapp.com/icons/" + g.id + "/" + g.icon.value + ".png?size=128")
    else None
  }

  /** `bannerUrl`: a CDN address exactly when the guild has a banner hash. */
  function BannerUrl(g: GuildInfo): (r: Option<string>)
    ensures r.Some? <==> Truthy(g.banner)
    ensures r.Some? ==> r.value == "https://cdn.discordapp.com/banners/" + g.id + "/" + g.banner.value + ".png?size=2048"
  {
    if Truthy(g.banner)
    then Some("https://cdn.discordapp.com/banners/" + g.id + "/" + g.banner.value + ".png?size=2048")
    else None
  }

  /**
   * `(name?.[0] ?? "?").toUpperCase()`: the first character upper-cased
   * (ASCII letters only), or "?" for a missing or empty name.
   */
  function InitialLetter(name: Option<string>): (r: string)
    ensures |r| == 1
    ensures (name.None? || name.value == "") ==> r == "?"
    ensures name.Some? && name.value != "" ==> r[0] == JsString.UpperChar(name.value[0])
  {
    if name.Some? && name.value != "" then [JsString.UpperChar(name.value[0])] else "?"
  }

  // ----- percentages -----

  /**
   * `Math.round(a / b * 100)` on non-negative integers: the nearest integer
   * to 100a/b, with halves rounded up.
   */
  function RoundPercent(a: nat, b: nat): (r: nat)
    requires b > 0
    ensures 200 * a - b < 2 * b * r <= 200 * a + b
  {
    var n := 200 * a + b;
    var q := n / (2 * b);
    assert 2 * b * q <= n < 2 * b * q + 2 * b;
    q
  }

  /** Cancelling a positive factor from a strict inequality. */
  lemma MulLtCancel(m: nat, x: int, y: int)
    requires m > 0 && m * x < m * y
    ensures x < y
  {
  }

  /** Rounding is faithful at whole percentages. */
  lemma RoundPercentExact(a: nat, b: nat, p: nat)
    requires b > 0 && 100 * a == p * b
    ensures RoundPercent(a, b) == p
  {
    var r := RoundPercent(a, b);
    assert 2 * b * r <= 2 * b * p + b < 2 * b * (p + 1);
    MulLtCancel(2 * b, r, p + 1);
    assert 2 * b * (p - 1) < 2 * b * p - b < 2 * b * r;
    MulLtCancel(2 * b, p - 1, r);
  }

  /** A numerator at or above the denominator rounds to at least 100 %. */
  lemma RoundPercentFull(a: nat, b: nat)
    requires b > 0
    ensures a >= b ==> RoundPercent(a, b) >= 100
  {
    if a >= b {
      RoundPercentMonotone(b, a, b);
      RoundPercentExact(b, b, 100);
    }
  }

  /** A numerator at or below the denominator rounds to at most 100 %. */
  lemma RoundPercentAtMostFull(a: nat, b: nat)
    requires b > 0
    ensures a <= b ==> RoundPercent(a, b) <= 100
  {
    if a <= b {
      RoundPercentMonotone(a, b, b);
      RoundPercentExact(b, b, 100);
    }
  }

  /** Rounding never decreases as the numerator grows. */
  lemma RoundPercentMonotone(a: nat, a': nat, b: nat)
    requires b > 0 && a <= a'
    ensures RoundPercent(a, b) <= RoundPercent(a', b)
  {
    var r, r' := RoundPercent(a, b), RoundPercent(a', b);
    assert 2 * b * r <= 200 * a' + b < 2 * b * (r' + 1);
    MulLtCancel(2 * b, r, r' + 1);
  }

  /** The four boost tier thresholds. */
  const Thresholds: seq<nat> := [0, 2, 7, 14]

  function Min(x: int, y: int): int { if x <= y then x else y }
  function Max(x: int, y: int): int { if x >= y then x else y }

  /** The tier progress values the card displays. */
  datatype BoostProgress = BoostProgress(
    tier: nat, boosts: nat, next: nat, atMax: bool, toNext: nat, pctNext: nat)

  /** Tier progress (lines 30-40): tier and boosts default to 0. */
  function Boosts(g: GuildInfo): (r: BoostProgress)
    ensures r.tier == g.premiumTier.GetOr(0) && r.boosts == g.premiumSubscriptionCount.GetOr(0)
    ensures r.atMax <==> r.tier >= 3
    ensures r.next == if r.tier == 0 then 2 else if r.tier == 1 then 7 else 14
    ensures r.atMax ==> r.toNext == 0 && r.pctNext == 100
    ensures !r.atMax ==> r.toNext == if r.boosts < r.next then r.next - r.boosts else 0
    ensures r.pctNext <= 100
    ensures r.boosts >= r.next ==> r.pctNext == 100
  {
    var tier := g.premiumTier.GetOr(0);
    var boosts := g.premiumSubscriptionCount.GetOr(0);
    var next := Thresholds[Min(tier + 1, 3)];
    var atMax := tier >= 3;
    var toNext := if atMax then 0 else Max(0, next - boosts);
    var pctNext := if atMax then 100 else Min(100, RoundPercent(boosts, next));
    RoundPercentFull(boosts, next);
    BoostProgress(tier, boosts, next, atMax, toNext, pctNext)
  }

  /** Below the next threshold the bar shows the rounded share of it. */
  lemma BoostsBelowNext(g: GuildInfo)
    requires !Boosts(g).atMax && Boosts(g).boosts < Boosts(g).next
    ensures Boosts(g).pctNext == RoundPercent(Boosts(g).boosts, Boosts(g).next) < 100
  {
    var r := Boosts(g);
    var p := RoundPercent(r.boosts, r.next);
    assert 2 * r.next * p <= 200 * r.boosts + r.next;
    assert 200 * r.boosts <= 200 * r.next - 200;
  }

  /**
   * For the thresholds 2, 7 and 14 the quotient 100·boosts/next never ends
   * in exactly .5, so rounding never meets a tie there.
   */
  lemma NoTieAtThresholds(boosts: nat, next: nat, k: int)
    requires next == 2 || next == 7 || next == 14
    ensures 200 * boosts != (2 * k + 1) * next
  {
    if next == 2 {
      assert (2 * k + 1) * 2 == 4 * k + 2;
      assert 200 * boosts == 4 * (50 * boosts);
    } else if next == 7 {
      assert (2 * k + 1) * 7 == 2 * (7 * k + 3) + 1;
      assert 200 * boosts == 2 * (100 * boosts);
    } else {
      assert (2 * k + 1) * 14 == 4 * (7 * k + 3) + 2;
      assert 200 * boosts == 4 * (50 * boosts);
    }
  }

  /** `pctOnline`: 0 for an empty guild, else the rounded share of members present. */
  function PctOnline(g: GuildInfo): (r: nat)
    ensures g.approximateMemberCount.GetOr(0) == 0 ==> r == 0
    ensures g.approximateMemberCount.GetOr(0) > 0 ==>
      r == RoundPercent(g.approximatePresenceCount.GetOr(0), g.approximateMemberCount.GetOr(0))
    ensures g.approximatePresenceCount.GetOr(0) <= g.approximateMemberCount.GetOr(0) ==> r <= 100
  {
    var total := g.approximateMemberCount.GetOr(0);
    var online := g.approximatePresenceCount.GetOr(0);
    if total > 0 then
      RoundPercentAtMostFull(online, total);
      RoundPercent(online, total)
    else 0
  }
}
