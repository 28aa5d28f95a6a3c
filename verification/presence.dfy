/** The presence payload the page renders: the `data` object of the
    aggregation API's `{success, data}` envelope, and the outcome of one
    fetch. Optional JSON fields are `Option`s; a field that is absent or
    `null` is `None`. */
module Presence {

  datatype Option<T> = None | Some(value: T)

  /** JavaScript truthiness of an optional string: present and non-empty. */
  predicate Truthy(o: Option<string>) {
    o.Some? && o.value != ""
  }

  /** One entry of `activities`. `kind` is the numeric activity `type`;
      `start` is `timestamps.start` in epoch milliseconds. */
  datatype Activity = Activity(
    name: string,
    kind: int,
    details: Option<string>,
    state: Option<string>,
    start: Option<int>)

  /** `activity.timestamps?.start` is truthy: present and not zero. */
  predicate HasStart(a: Activity) {
    a.start.Some? && a.start.value != 0
  }

  /** `discord_user`: `avatar` is the avatar hash, `globalName` the display name. */
  datatype DiscordUser = DiscordUser(
    id: string,
    username: string,
    globalName: Option<string>,
    avatar: Option<string>)

  datatype SpotifyTrack = SpotifyTrack(
    song: string,
    artist: string,
    album: string,
    albumArtUrl: string)

  /** `data`: the user, the status string, the activity list (absent or
      `null` is `None`), the listening flag and the Spotify object. */
  datatype PresenceData = PresenceData(
    discordUser: DiscordUser,
    discordStatus: string,
    activities: Option<seq<Activity>>,
    listeningToSpotify: bool,
    spotify: Option<SpotifyTrack>)

  /** What one fetch produced: either something before the first update
      threw (`fetch`, `response.json()`, or reading `success` of a `null`
      body), or a parsed envelope arrived whose `data` may be missing. */
  datatype FetchOutcome =
    | Thrown
    | Envelope(success: bool, data: Option<PresenceData>)
}
