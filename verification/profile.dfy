/** The page fields `GamingProfile` overwrites and the dispatch of one
    `loadProfile` outcome onto them. `PageView` is the value of those
    fields; the functions below say what each update does to it, and the
    class `Page` holds the fields and changes them in place. */
module Profile {
  import opened Presence
  import opened Render

  /** `userAvatar.src`, `username.textContent`, `statusText.textContent`,
      `statusIndicator.className`, `statusRing.style.borderColor`,
      `activityContainer.innerHTML`, `spotifySection.style.display` and
      `spotifyContainer.innerHTML`. */
  datatype PageView = PageView(
    avatarSrc: string,
    username: string,
    statusText: string,
    indicatorClass: string,
    ringColor: string,
    activityHtml: string,
    spotifyDisplay: string,
    spotifyHtml: string)

  /** `global_name || username`. */
  function DisplayName(user: DiscordUser): (name: string)
    ensures Truthy(user.globalName) ==> name == user.globalName.value
    ensures !Truthy(user.globalName) ==> name == user.username
  {
    if Truthy(user.globalName) then user.globalName.value else user.username
  }

  /** `updateProfile`: avatar (only when a hash is given), name and the three status fields. */
  function ProfileUpdate(v: PageView, data: PresenceData): (w: PageView)
    ensures w.activityHtml == v.activityHtml
    ensures w.spotifyDisplay == v.spotifyDisplay && w.spotifyHtml == v.spotifyHtml
    ensures !Truthy(data.discordUser.avatar) ==> w.avatarSrc == v.avatarSrc
    ensures Truthy(data.discordUser.avatar) ==>
      w.avatarSrc == AvatarUrl(data.discordUser.id, data.discordUser.avatar.value)
    ensures w.username == DisplayName(data.discordUser)
    ensures w.statusText == StatusMessage(data.discordStatus)
    ensures w.indicatorClass == IndicatorClass(data.discordStatus)
    ensures w.ringColor == StatusColor(data.discordStatus)
  {
    var user := data.discordUser;
    var src := if Truthy(user.avatar) then AvatarUrl(user.id, user.avatar.value) else v.avatarSrc;
    v.(avatarSrc := src,
       username := DisplayName(user),
       statusText := StatusMessage(data.discordStatus),
       indicatorClass := IndicatorClass(data.discordStatus),
       ringColor := StatusColor(data.discordStatus))
  }

  /** `updateActivities`: only the activity container changes. */
  function ActivitiesUpdate(v: PageView, acts: Option<seq<Activity>>, now: int): (w: PageView)
    ensures w == v.(activityHtml := w.activityHtml)
    ensures w.activityHtml == ActivitiesHtml(acts, now)
    ensures acts.None? || acts.value == [] ==> w.activityHtml == NoActivityCard()
  {
    v.(activityHtml := ActivitiesHtml(acts, now))
  }

  /** Whether `updateSpotify` hides the section: `!isListening || !spotify`. */
  predicate SpotifyHidden(spotify: Option<SpotifyTrack>, isListening: bool)
    ensures !isListening ==> SpotifyHidden(spotify, isListening)
    ensures spotify.None? ==> SpotifyHidden(spotify, isListening)
    ensures !SpotifyHidden(spotify, isListening) ==> isListening && spotify.Some?
  {
    !isListening || spotify.None?
  }

  /** `updateSpotify`: hidden leaves the container as it was; shown rebuilds it. */
  function SpotifyUpdate(v: PageView, spotify: Option<SpotifyTrack>, isListening: bool): (w: PageView)
    ensures w == v.(spotifyDisplay := w.spotifyDisplay, spotifyHtml := w.spotifyHtml)
    ensures w.spotifyDisplay == "none" <==> SpotifyHidden(spotify, isListening)
    ensures w.spotifyDisplay == "block" <==> !SpotifyHidden(spotify, isListening)
    ensures SpotifyHidden(spotify, isListening) ==> w.spotifyHtml == v.spotifyHtml
    ensures !SpotifyHidden(spotify, isListening) ==> w.spotifyHtml == SpotifyCard(spotify.value)
  {
    if SpotifyHidden(spotify, isListening) then
      v.(spotifyDisplay := "none")
    else
      v.(spotifyDisplay := "block", spotifyHtml := SpotifyCard(spotify.value))
  }

  /** `showError`: the error card replaces the activity container and nothing else. */
  function ErrorUpdate(v: PageView): (w: PageView)
    ensures w == v.(activityHtml := ErrorCard())
  {
    v.(activityHtml := ErrorCard())
  }

  /** The three updates of a successful envelope, in the source's order.
      Every field is set from the payload, except the avatar when no hash
      is given and the Spotify container when the section is hidden. */
  function ApplySnapshot(v: PageView, data: PresenceData, now: int): (w: PageView)
    ensures w.username == DisplayName(data.discordUser)
    ensures w.statusText == StatusMessage(data.discordStatus)
    ensures w.indicatorClass == IndicatorClass(data.discordStatus)
    ensures w.ringColor == StatusColor(data.discordStatus)
    ensures w.activityHtml == ActivitiesHtml(data.activities, now)
    ensures Truthy(data.discordUser.avatar) ==>
      w.avatarSrc == AvatarUrl(data.discordUser.id, data.discordUser.avatar.value)
    ensures !Truthy(data.discordUser.avatar) ==> w.avatarSrc == v.avatarSrc
    ensures w.spotifyDisplay == "none" <==> SpotifyHidden(data.spotify, data.listeningToSpotify)
    ensures SpotifyHidden(data.spotify, data.listeningToSpotify) ==> w.spotifyHtml == v.spotifyHtml
    ensures !SpotifyHidden(data.spotify, data.listeningToSpotify) ==>
      w.spotifyDisplay == "block" && w.spotifyHtml == SpotifyCard(data.spotify.value)
  {
    SpotifyUpdate(ActivitiesUpdate(ProfileUpdate(v, data), data.activities, now),
                  data.spotify, data.listeningToSpotify)
  }

  /** `loadProfile` after its fetch settles. An envelope with `success`
      but no `data` makes `updateProfile` throw before it assigns anything,
      so the catch shows the error card; `success: false` does nothing. */
  function Load(v: PageView, outcome: FetchOutcome, now: int): (w: PageView)
    ensures outcome.Envelope? && !outcome.success ==> w == v
    ensures outcome.Thrown? ==> w == ErrorUpdate(v)
    ensures outcome.Envelope? && outcome.success && outcome.data.None? ==> w == ErrorUpdate(v)
    ensures outcome.Envelope? && outcome.success && outcome.data.Some? ==>
      w == ApplySnapshot(v, outcome.data.value, now)
  {
    match outcome
    case Thrown => ErrorUpdate(v)
    case Envelope(success, data) =>
      if !success then v
      else if data.None? then ErrorUpdate(v)
      else ApplySnapshot(v, data.value, now)
  }

  /** An error leaves avatar, name, status and Spotify as they were and
      shows the error card in the activity container. */
  lemma ErrorKeepsIdentity(v: PageView, now: int)
    ensures var w := Load(v, Thrown, now);
      && w.avatarSrc == v.avatarSrc && w.username == v.username
      && w.statusText == v.statusText && w.indicatorClass == v.indicatorClass
      && w.ringColor == v.ringColor
      && w.spotifyDisplay == v.spotifyDisplay && w.spotifyHtml == v.spotifyHtml
      && w.activityHtml == ErrorCard()
  {
  }

  /** Rendering the same outcome twice shows the same page as rendering it once. */
  lemma LoadIdempotent(v: PageView, outcome: FetchOutcome, now: int)
    ensures Load(Load(v, outcome, now), outcome, now) == Load(v, outcome, now)
  {
  }

  /** Last write wins: after a successful load the page no longer depends on
      what was shown before, save the avatar without a hash and the hidden
      Spotify container, which keep their earlier values. */
  lemma LoadReplacesWholesale(v1: PageView, v2: PageView, outcome: FetchOutcome, now: int)
    requires outcome.Envelope? && outcome.success && outcome.data.Some?
    ensures var w1, w2, d := Load(v1, outcome, now), Load(v2, outcome, now), outcome.data.value;
      && w1.(avatarSrc := "", spotifyHtml := "") == w2.(avatarSrc := "", spotifyHtml := "")
      && (Truthy(d.discordUser.avatar) ==> w1.avatarSrc == w2.avatarSrc)
      && (!SpotifyHidden(d.spotify, d.listeningToSpotify) ==> w1.spotifyHtml == w2.spotifyHtml)
  {
  }

  /** The three updates write disjoint fields, so their order does not change the page. */
  lemma UpdatesCommute(v: PageView, data: PresenceData, now: int)
    ensures ApplySnapshot(v, data, now)
         == ProfileUpdate(ActivitiesUpdate(SpotifyUpdate(v, data.spotify, data.listeningToSpotify),
                                           data.activities, now), data)
  {
  }

  /** The page: the DOM fields `GamingProfile` assigns, updated in place. */
  class Page {
    var avatarSrc: string
    var username: string
    var statusText: string
    var indicatorClass: string
    var ringColor: string
    var activityHtml: string
    var spotifyDisplay: string
    var spotifyHtml: string

    function View(): PageView
      reads this
    {
      PageView(avatarSrc, username, statusText, indicatorClass, ringColor,
               activityHtml, spotifyDisplay, spotifyHtml)
    }

    /** The page as the static markup leaves it before the first load. */
    constructor (initial: PageView)
      ensures View() == initial
    {
      avatarSrc := initial.avatarSrc;
      username := initial.username;
      statusText := initial.statusText;
      indicatorClass := initial.indicatorClass;
      ringColor := initial.ringColor;
      activityHtml := initial.activityHtml;
      spotifyDisplay := initial.spotifyDisplay;
      spotifyHtml := initial.spotifyHtml;
    }

    method UpdateProfile(data: PresenceData)
      modifies this`avatarSrc, this`username, this`statusText, this`indicatorClass, this`ringColor
      ensures View() == ProfileUpdate(old(View()), data)
    {
      var user := data.discordUser;
      if Truthy(user.avatar) {
        avatarSrc := AvatarUrl(user.id, user.avatar.value);
      }
      username := DisplayName(user);
      var status := data.discordStatus;
      statusText := StatusMessage(status);
      indicatorClass := IndicatorClass(status);
      ringColor := StatusColor(status);
    }

    method UpdateActivities(acts: Option<seq<Activity>>, now: int)
      modifies this`activityHtml
      ensures View() == ActivitiesUpdate(old(View()), acts, now)
    {
      if acts.None? || |acts.value| == 0 {
        activityHtml := NoActivityCard();
        return;
      }
      activityHtml := Join(ActivityCards(acts.value, now));
    }

    method UpdateSpotify(spotify: Option<SpotifyTrack>, isListening: bool)
      modifies this`spotifyDisplay, this`spotifyHtml
      ensures View() == SpotifyUpdate(old(View()), spotify, isListening)
    {
      if !isListening || spotify.None? {
        spotifyDisplay := "none";
        return;
      }
      spotifyDisplay := "block";
      spotifyHtml := SpotifyCard(spotify.value);
    }

    method ShowError()
      modifies this`activityHtml
      ensures View() == ErrorUpdate(old(View()))
    {
      activityHtml := ErrorCard();
    }

    /** `loadProfile` once its fetch has settled with `outcome`; `now` is `Date.now()`. */
    method LoadProfile(outcome: FetchOutcome, now: int)
      modifies this
      ensures View() == Load(old(View()), outcome, now)
    {
      match outcome
      case Thrown =>
        ShowError();
      case Envelope(success, data) =>
        if success {
          if data.None? {
            ShowError();
          } else {
            var d := data.value;
            UpdateProfile(d);
            UpdateActivities(d.activities, now);
            UpdateSpotify(d.spotify, d.listeningToSpotify);
          }
        }
    }
  }
}
