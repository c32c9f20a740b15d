/**
 * The guild settings form: the edited record, the per-field updater, the
 * normalisation of the required channels against the current channel list,
 * the payload that is posted (with the optional "The Division 2" section
 * blanked when it is hidden), and the form's saving / message state.
 */
module SettingsForm {
  import opened Wrappers
  import JsString

  /** A selectable channel or role. */
  datatype ChannelOption = ChannelOption(id: string, name: string)

  /** The edited configuration; a `number | null` field is `Option<int>`. */
  datatype Settings = Settings(
    welcomeChannelId: string,
    goodbyeChannelId: string,
    logChannelId: string,
    botAnnouncementsChannelId: string,
    raidsTd2ChannelId: string,
    activitiesTd2ChannelId: string,
    incursionChannelId: string,
    buildChannelId: string,
    raidManagerRoleId: string,
    muteRoleId: string,
    maxWarnsMuteMinutes: Option<int>,
    maxWarnsKick: Option<int>,
    maxWarnsBanDays: Option<int>,
    warnDecayDays: Option<int>,
    automodEnabled: bool,
    blockInvites: bool,
    blockLinks: bool,
    capsThreshold: Option<int>,
    mentionThreshold: Option<int>)

  /** The keys of `Settings`. */
  datatype Field =
    | WelcomeChannelId | GoodbyeChannelId | LogChannelId | BotAnnouncementsChannelId
    | RaidsTd2ChannelId | ActivitiesTd2ChannelId | IncursionChannelId | BuildChannelId
    | RaidManagerRoleId | MuteRoleId
    | MaxWarnsMuteMinutes | MaxWarnsKick | MaxWarnsBanDays | WarnDecayDays
    | AutomodEnabled | BlockInvites | BlockLinks
    | CapsThreshold | MentionThreshold

  /** A field's value, tagged with its type. */
  datatype Value = Text(s: string) | Number(n: Option<int>) | Flag(b: bool)

  /** `state[k]`. */
  function Get(s: Settings, k: Field): Value
  {
    match k
    case WelcomeChannelId => Text(s.welcomeChannelId)
    case GoodbyeChannelId => Text(s.goodbyeChannelId)
    case LogChannelId => Text(s.logChannelId)
    case BotAnnouncementsChannelId => Text(s.botAnnouncementsChannelId)
    case RaidsTd2ChannelId => Text(s.raidsTd2ChannelId)
    case ActivitiesTd2ChannelId => Text(s.activitiesTd2ChannelId)
    case IncursionChannelId => Text(s.incursionChannelId)
    case BuildChannelId => Text(s.buildChannelId)
    case RaidManagerRoleId => Text(s.raidManagerRoleId)
    case MuteRoleId => Text(s.muteRoleId)
    case MaxWarnsMuteMinutes => Number(s.maxWarnsMuteMinutes)
    case MaxWarnsKick => Number(s.maxWarnsKick)
    case MaxWarnsBanDays => Number(s.maxWarnsBanDays)
    case WarnDecayDays => Number(s.warnDecayDays)
    case AutomodEnabled => Flag(s.automodEnabled)
    case BlockInvites => Flag(s.blockInvites)
    case BlockLinks => Flag(s.blockLinks)
    case CapsThreshold => Number(s.capsThreshold)
    case MentionThreshold => Number(s.mentionThreshold)
  }

  /** `v` has the type `Initial[K]` declares for key `k`. */
  predicate Fits(k: Field, v: Value)
  {
    match k
    case MaxWarnsMuteMinutes | MaxWarnsKick | MaxWarnsBanDays | WarnDecayDays
       | CapsThreshold | MentionThreshold => v.Number?
    case AutomodEnabled | BlockInvites | BlockLinks => v.Flag?
    case _ => v.Text?
  }

  /** `{ ...s, [k]: v }`. */
  function With(s: Settings, k: Field, v: Value): Settings
    requires Fits(k, v)
  {
    match k
    case WelcomeChannelId => s.(welcomeChannelId := v.s)
    case GoodbyeChannelId => s.(goodbyeChannelId := v.s)
    case LogChannelId => s.(logChannelId := v.s)
    case BotAnnouncementsChannelId => s.(botAnnouncementsChannelId := v.s)
    case RaidsTd2ChannelId => s.(raidsTd2ChannelId := v.s)
    case ActivitiesTd2ChannelId => s.(activitiesTd2ChannelId := v.s)
    case IncursionChannelId => s.(incursionChannelId := v.s)
    case BuildChannelId => s.(buildChannelId := v.s)
    case RaidManagerRoleId => s.(raidManagerRoleId := v.s)
    case MuteRoleId => s.(muteRoleId := v.s)
    case MaxWarnsMuteMinutes => s.(maxWarnsMuteMinutes := v.n)
    case MaxWarnsKick => s.(maxWarnsKick := v.n)
    case MaxWarnsBanDays => s.(maxWarnsBanDays := v.n)
    case WarnDecayDays => s.(warnDecayDays := v.n)
    case AutomodEnabled => s.(automodEnabled := v.b)
    case BlockInvites => s.(blockInvites := v.b)
    case BlockLinks => s.(blockLinks := v.b)
    case CapsThreshold => s.(capsThreshold := v.n)
    case MentionThreshold => s.(mentionThreshold := v.n)
  }

  /** `set(k)(v)`: key `k` now holds `v`, and every other key is unchanged. */
  lemma WithChangesOneField(s: Settings, k: Field, v: Value)
    requires Fits(k, v)
    ensures Get(With(s, k, v), k) == v
    ensures forall j :: j != k ==> Get(With(s, k, v), j) == Get(s, j)
  {
  }

  /** Setting a key to the value it already holds changes nothing. */
  lemma WithOwnValue(s: Settings, k: Field)
    ensures Fits(k, Get(s, k)) && With(s, k, Get(s, k)) == s
  {
  }

  // ----- normalisation and payload -----

  /** The four channels the form requires. */
  predicate IsRequired(k: Field)
  {
    k == WelcomeChannelId || k == GoodbyeChannelId || k == LogChannelId || k == BotAnnouncementsChannelId
  }

  /** The fields of the optional "The Division 2" section. */
  predicate IsTd2(k: Field)
  {
    k == RaidsTd2ChannelId || k == ActivitiesTd2ChannelId || k == IncursionChannelId
    || k == BuildChannelId || k == RaidManagerRoleId
  }

  /** `new Set(channels.map(c => c.id))`. */
  function ChannelIds(channels: seq<ChannelOption>): (ids: set<string>)
    ensures forall id :: id in ids <==> exists c :: c in channels && c.id == id
  {
    set c | c in channels :: c.id
  }

  /** `channelIds.has(id) ? id : ""`. */
  function KeepIfListed(id: string, ids: set<string>): string
  {
    if id in ids then id else ""
  }

  /** `normalized`: the required channels survive only if they are still listed. */
  function Normalize(s: Settings, ids: set<string>): Settings
  {
    s.(welcomeChannelId := KeepIfListed(s.welcomeChannelId, ids),
       goodbyeChannelId := KeepIfListed(s.goodbyeChannelId, ids),
       logChannelId := KeepIfListed(s.logChannelId, ids),
       botAnnouncementsChannelId := KeepIfListed(s.botAnnouncementsChannelId, ids))
  }

  /**
   * A required field is kept when it is a listed channel id and becomes ""
   * otherwise; every other field is left as it was.
   */
  lemma NormalizeSpec(s: Settings, ids: set<string>)
    ensures forall k :: IsRequired(k) ==>
      Get(Normalize(s, ids), k) == if Get(s, k).s in ids then Get(s, k) else Text("")
    ensures forall k :: !IsRequired(k) ==> Get(Normalize(s, ids), k) == Get(s, k)
  {
  }

  /** After normalisation each required field is "" or a listed channel id. */
  lemma NormalizedRequiredAreListed(s: Settings, ids: set<string>)
    ensures forall k :: IsRequired(k) ==>
      Get(Normalize(s, ids), k).Text? &&
      (Get(Normalize(s, ids), k).s == "" || Get(Normalize(s, ids), k).s in ids)
  {
    NormalizeSpec(s, ids);
  }

  /** Normalising twice is normalising once. */
  lemma NormalizeIdempotent(s: Settings, ids: set<string>)
    ensures Normalize(Normalize(s, ids), ids) == Normalize(s, ids)
  {
  }

  /** The record posted: `normalized`, with the section's fields blanked when it is hidden. */
  function Payload(normalized: Settings, showTD2: bool): Settings
  {
    if showTD2 then normalized
    else normalized.(raidsTd2ChannelId := "", activitiesTd2ChannelId := "",
                     incursionChannelId := "", buildChannelId := "", raidManagerRoleId := "")
  }

  /** The payload is `normalized` when the section is shown; otherwise only the section's fields change, to "". */
  lemma PayloadSpec(normalized: Settings, showTD2: bool)
    ensures showTD2 ==> Payload(normalized, showTD2) == normalized
    ensures !showTD2 ==> forall k ::
      Get(Payload(normalized, showTD2), k) == if IsTd2(k) then Text("") else Get(normalized, k)
  {
  }

  /** Whatever the visibility, the posted required channels are "" or listed. */
  lemma PayloadRequiredAreListed(s: Settings, ids: set<string>, showTD2: bool)
    ensures forall k :: IsRequired(k) ==>
      var v := Get(Payload(Normalize(s, ids), showTD2), k);
      v.Text? && (v.s == "" || v.s in ids)
  {
    NormalizedRequiredAreListed(s, ids);
    PayloadSpec(Normalize(s, ids), showTD2);
  }

  /** `defaultTD2`: the section starts visible when any of its fields is already set. */
  function DefaultTD2(initial: Settings): (r: bool)
  {
    initial.raidsTd2ChannelId != "" || initial.activitiesTd2ChannelId != ""
    || initial.incursionChannelId != "" || initial.buildChannelId != ""
    || initial.raidManagerRoleId != ""
  }

  /** The section starts visible exactly when some section field holds a non-empty value. */
  lemma DefaultTD2Spec(initial: Settings)
    ensures DefaultTD2(initial) <==> exists k :: IsTd2(k) && Get(initial, k) != Text("")
  {
    if DefaultTD2(initial) {
      if initial.raidsTd2ChannelId != "" { assert Get(initial, RaidsTd2ChannelId) != Text(""); }
      else if initial.activitiesTd2ChannelId != "" { assert Get(initial, ActivitiesTd2ChannelId) != Text(""); }
      else if initial.incursionChannelId != "" { assert Get(initial, IncursionChannelId) != Text(""); }
      else if initial.buildChannelId != "" { assert Get(initial, BuildChannelId) != Text(""); }
      else { assert Get(initial, RaidManagerRoleId) != Text(""); }
    }
  }

  /** A hidden section posts nothing the section would have shown. */
  lemma HiddenSectionPostsBlank(initial: Settings, ids: set<string>)
    requires !DefaultTD2(initial)
    ensures Payload(Normalize(initial, ids), false) == Normalize(initial, ids)
  {
  }

  // ----- the form component -----

  /** How the POST of the payload ended. */
  datatype SubmitOutcome =
    | Saved
    | HttpError(status: nat, error: Option<string>)  // non-OK; `error` from the JSON body, if any
    | Threw(message: Option<string>)                 // `message` when the thrown value is an Error

  const SavedMessage: string := "Configuration enregistrée ✅"
  const FallbackError: string := "Erreur lors de l’enregistrement"

  /** The component state of the settings form. */
  class SettingsFormState {
    const guildId: string
    const channels: seq<ChannelOption>
    var state: Settings
    var saving: bool
    var msg: Option<string>
    var err: Option<string>
    var showTD2: bool

    constructor (guildId: string, initial: Settings, channels: seq<ChannelOption>)
      ensures this.guildId == guildId && this.channels == channels
      ensures state == initial && !saving && msg.None? && err.None?
      ensures showTD2 == DefaultTD2(initial)
    {
      this.guildId := guildId;
      this.channels := channels;
      state := initial;
      saving := false;
      msg := None;
      err := None;
      showTD2 := DefaultTD2(initial);
    }

    /** The record the selects display and the payload is built from. */
    function Normalized(): Settings
      reads this
    {
      Normalize(state, ChannelIds(channels))
    }

    /** An input's `onChange`, through `set(k)`. */
    method Set(k: Field, v: Value)
      requires Fits(k, v)
      modifies this
      ensures state == With(old(state), k, v)
      ensures saving == old(saving) && msg == old(msg) && err == old(err) && showTD2 == old(showTD2)
    {
      state := With(state, k, v);
    }

    /** The section's toggle switch. */
    method ToggleTD2()
      modifies this
      ensures showTD2 == !old(showTD2)
      ensures state == old(state) && saving == old(saving) && msg == old(msg) && err == old(err)
    {
      showTD2 := !showTD2;
    }

    /**
     * The synchronous part of `submit`, up to the request: mark saving, clear
     * the messages, and return the address and the record that are posted.
     */
    method BeginSubmit() returns (url: string, payload: Settings)
      modifies this
      ensures url == "/api/guilds/" + guildId + "/settings"
      ensures payload == Payload(old(Normalized()), old(showTD2))
      ensures saving && msg.None? && err.None?
      ensures state == old(state) && showTD2 == old(showTD2)
    {
      saving := true;
      msg := None;
      err := None;
      payload := if showTD2 then Normalized() else Payload(Normalized(), false);
      url := "/api/guilds/" + guildId + "/settings";
    }

    /** The rest of `submit`, once the request has ended: report, then stop saving. */
    method CompleteSubmit(outcome: SubmitOutcome)
      modifies this
      ensures !saving && state == old(state) && showTD2 == old(showTD2)
      ensures outcome.Saved? ==> msg == Some(SavedMessage) && err == old(err)
      ensures outcome.HttpError? ==>
        msg == old(msg) && err == Some(outcome.error.GetOr("HTTP " + JsString.NatToString(outcome.status)))
      ensures outcome.Threw? ==> msg == old(msg) && err == Some(outcome.message.GetOr(FallbackError))
    {
      match outcome {
        case HttpError(status, error) =>
          err := Some(error.GetOr("HTTP " + JsString.NatToString(status)));
        case Saved =>
          msg := Some(SavedMessage);
        case Threw(message) =>
          err := Some(message.GetOr(FallbackError));
      }
      saving := false;
    }
  }

  /** A whole submit, begun and completed, leaves exactly one of the message and the error set. */
  method SubmitOnce(form: SettingsFormState, outcome: SubmitOutcome) returns (payload: Settings)
    modifies form
    ensures payload == Payload(old(form.Normalized()), old(form.showTD2))
    ensures !form.saving && (form.msg.Some? <==> outcome.Saved?) && (form.err.Some? <==> !outcome.Saved?)
  {
    var url;
    url, payload := form.BeginSubmit();
    form.CompleteSubmit(outcome);
  }
}
