/** The pure part of `GamingProfile`: the lookup tables with their fallbacks,
    `formatTime`, and the HTML fragments the page's containers receive.
    Template literals are written out with their exact line breaks and
    indentation; nothing is escaped, as in the templates themselves. */
module Render {
  import opened Decimal
  import opened Presence

  // ---------------------------------------------------------------------
  // Status lookups (script.js:148-158, script.js:226-234)

  const Green := "#00FF00"
  const Orange := "#FFA500"
  const Red := "#FF0000"
  const Grey := "#808080"

  const StatusColors: map<string, string> :=
    map["online" := Green, "idle" := Orange, "dnd" := Red, "offline" := Grey]

  /** The four status strings the tables know: the colour table's keys. */
  const KnownStatuses: set<string> := StatusColors.Keys

  const StatusMessages: map<string, string> :=
    map["online" := "\U{1F525} Ready to Dominate!",
        "idle" := "\U{23F0} Taking a Break",
        "dnd" := "\U{1F3AE} In Game Mode",
        "offline" := "\U{1F4A4} Offline"]

  const UnknownStatus := "Unknown Status"

  /** The colour and message tables know the same four statuses. */
  lemma StatusTablesShareKeys()
    ensures StatusMessages.Keys == KnownStatuses
    ensures KnownStatuses == {"online", "idle", "dnd", "offline"}
  {
  }

  /** `getStatusColor`: the table's colour, grey for any other status. */
  function StatusColor(status: string): (c: string)
    ensures c in {Green, Orange, Red, Grey}
    ensures status in StatusColors ==> c == StatusColors[status]
    ensures status !in KnownStatuses ==> c == StatusColors["offline"]
  {
    if status in StatusColors then StatusColors[status] else Grey
  }

  /** Grey is shown exactly for `offline` and for every status outside the table. */
  lemma StatusColorGrey(status: string)
    ensures StatusColor(status) == Grey <==> status == "offline" || status !in KnownStatuses
  {
  }

  /** The four known statuses get four different colours. */
  lemma StatusColorDistinguishesKnown(s: string, t: string)
    requires s in KnownStatuses && t in KnownStatuses
    ensures StatusColor(s) == StatusColor(t) <==> s == t
  {
  }

  /** The status text: the table's message, `Unknown Status` otherwise. */
  function StatusMessage(status: string): (m: string)
    ensures m == UnknownStatus <==> status !in KnownStatuses
    ensures status in KnownStatuses ==> m == StatusMessages[status]
  {
    if status in StatusMessages then StatusMessages[status] else UnknownStatus
  }

  /** The indicator's class list, built from the raw status even when it is unknown. */
  function IndicatorClass(status: string): (c: string)
    ensures |c| == |"status-indicator status-"| + |status|
    ensures c[..|"status-indicator status-"|] == "status-indicator status-"
    ensures c[|"status-indicator status-"|..] == status
  {
    "status-indicator status-" + status
  }

  /** Different statuses never share an indicator class. */
  lemma IndicatorClassInjective(s: string, t: string)
    ensures IndicatorClass(s) == IndicatorClass(t) <==> s == t
  {
  }

  // ---------------------------------------------------------------------
  // Activity icons (script.js:178-186)

  const Gamepad := "\U{1F3AE}"
  const Television := "\U{1F4FA}"
  const MusicNote := "\U{1F3B5}"
  const Eyes := "\U{1F440}"
  const Trophy := "\U{1F3C6}"
  const Warning := "\U{26A0}\U{FE0F}"

  /** Playing, Streaming, Listening, Watching and Competing; 4 (Custom) has no entry. */
  const ActivityIcons: map<int, string> :=
    map[0 := Gamepad, 1 := Television, 2 := MusicNote, 3 := Eyes, 5 := Trophy]

  function ActivityIcon(kind: int): (icon: string)
    ensures icon in {Gamepad, Television, MusicNote, Eyes, Trophy}
    ensures kind in ActivityIcons ==> icon == ActivityIcons[kind]
    ensures kind !in ActivityIcons ==> icon == ActivityIcons[0]
  {
    if kind in ActivityIcons then ActivityIcons[kind] else Gamepad
  }

  /** The Playing icon is shown for type 0 and for every type outside the table,
      type 4 included; each of the other four types has an icon of its own. */
  lemma ActivityIconPlaying(kind: int)
    ensures ActivityIcon(kind) == Gamepad <==> kind !in {1, 2, 3, 5}
    ensures ActivityIcon(4) == Gamepad
  {
  }

  lemma ActivityIconDistinguishesKnown(k: int, l: int)
    requires k in ActivityIcons && l in ActivityIcons
    ensures ActivityIcon(k) == ActivityIcon(l) <==> k == l
  {
  }

  // ---------------------------------------------------------------------
  // formatTime (script.js:236-248)

  /** `formatTime`: whole seconds, minutes and hours by nested floor division
      (Dafny's `/` by a positive divisor is `Math.floor` of the quotient, for
      negative elapsed time too); `minutes % 60` is only taken when the
      minutes are positive, where JavaScript's `%` agrees with Dafny's. */
  function FormatTime(ms: int): (r: string)
    ensures |r| >= 2
    ensures r[|r| - 1] == 's' <==> ms < 60000
  {
    var seconds := ms / 1000;
    var minutes := seconds / 60;
    var hours := minutes / 60;
    if hours > 0 then
      IntToString(hours) + "h " + IntToString(minutes % 60) + "m"
    else if minutes > 0 then
      IntToString(minutes) + "m"
    else
      IntToString(seconds) + "s"
  }

  /** Below one minute the text is the whole seconds. */
  lemma FormatTimeSeconds(ms: int)
    requires 0 <= ms < 60000
    ensures FormatTime(ms) == NatToString(ms / 1000) + "s"
  {
  }

  /** From one minute to below one hour the text is the whole minutes. */
  lemma FormatTimeMinutes(ms: int)
    requires 60000 <= ms < 3600000
    ensures FormatTime(ms) == NatToString(ms / 60000) + "m"
  {
  }

  /** From one hour on the text is the whole hours and the leftover whole
      minutes, which lie in 0..59 and together with the hours make up all
      the whole minutes elapsed. */
  lemma FormatTimeHours(ms: int)
    requires ms >= 3600000
    ensures FormatTime(ms) == NatToString(ms / 3600000) + "h " + NatToString(ms / 60000 % 60) + "m"
    ensures 0 <= ms / 60000 % 60 < 60
    ensures (ms / 3600000) * 60 + ms / 60000 % 60 == ms / 60000
  {
  }

  /** A negative elapsed time (a start stamp ahead of the clock) shows as
      negative whole seconds, rounded towards minus infinity. */
  lemma FormatTimeNegative(ms: int)
    requires ms < 0
    ensures FormatTime(ms) == "-" + NatToString(-(ms / 1000)) + "s"
    ensures -(ms / 1000) >= 1
  {
  }

  /** Worked examples below one hour, at the minute boundary included. */
  lemma FormatTimeExamplesShort()
    ensures FormatTime(45000) == "45s"
    ensures FormatTime(59999) == "59s"
    ensures FormatTime(60000) == "1m"
    ensures FormatTime(125000) == "2m"
  {
    FormatTimeSeconds(45000);
    FormatTimeSeconds(59999);
    FormatTimeMinutes(60000);
    FormatTimeMinutes(125000);
  }

  /** Worked examples from one hour on, and one of clock skew. */
  lemma FormatTimeExamplesLong()
    ensures FormatTime(3600000) == "1h 0m"
    ensures FormatTime(5400000) == "1h 30m"
    ensures FormatTime(-1) == "-1s"
  {
    FormatTimeHours(3600000);
    FormatTimeHours(5400000);
    FormatTimeNegative(-1);
  }

  // ---------------------------------------------------------------------
  // HTML fragments (script.js:165-173, script.js:190-200, script.js:214-223, script.js:293-301)

  /** A line break followed by `indent` spaces. */
  function Break(indent: nat): string {
    "\n" + seq(indent, _ => ' ')
  }

  /** The line breaks the templates use, spelled out. */
  lemma BreakLiterals()
    ensures Break(8) == "\n        " && Break(12) == "\n            " && Break(16) == "\n                "
    ensures Break(20) == "\n                    " && Break(24) == "\n                        "
  {
    assert seq(8, _ => ' ') == "\n        "[1..];
    assert seq(12, _ => ' ') == "\n            "[1..];
    assert seq(16, _ => ' ') == "\n                "[1..];
    assert seq(20, _ => ' ') == "\n                    "[1..];
    assert seq(24, _ => ' ') == "\n                        "[1..];
  }

  /** The card shown for a missing or empty activity list. */
  function NoActivityCard(): (html: string)
    ensures html ==
      "\n                " + "<div class=\"activity-card\">"
      + "\n                    " + "<div class=\"activity-icon\">\U{1F3AE}</div>"
      + "\n                    " + "<div class=\"activity-info\">"
      + "\n                        " + "<h3>No Current Activity</h3>"
      + "\n                        " + "<p>Ready for the next gaming session!</p>"
      + "\n                    " + "</div>"
      + "\n                " + "</div>"
      + "\n            "
  {
    BreakLiterals();
    Break(16) + "<div class=\"activity-card\">"
    + Break(20) + "<div class=\"activity-icon\">" + Gamepad + "</div>"
    + Break(20) + "<div class=\"activity-info\">"
    + Break(24) + "<h3>No Current Activity</h3>"
    + Break(24) + "<p>Ready for the next gaming session!</p>"
    + Break(20) + "</div>"
    + Break(16) + "</div>"
    + Break(12)
  }

  /** The card `showError` puts into the activity container. */
  function ErrorCard(): (html: string)
    ensures html ==
      "\n            " + "<div class=\"activity-card\">"
      + "\n                " + "<div class=\"activity-icon\">\U{26A0}\U{FE0F}</div>"
      + "\n                " + "<div class=\"activity-info\">"
      + "\n                    " + "<h3>Connection Error</h3>"
      + "\n                    " + "<p>Unable to load Discord status. Check your connection!</p>"
      + "\n                " + "</div>"
      + "\n            " + "</div>"
      + "\n        "
  {
    BreakLiterals();
    Break(12) + "<div class=\"activity-card\">"
    + Break(16) + "<div class=\"activity-icon\">" + Warning + "</div>"
    + Break(16) + "<div class=\"activity-info\">"
    + Break(20) + "<h3>Connection Error</h3>"
    + Break(20) + "<p>Unable to load Discord status. Check your connection!</p>"
    + Break(16) + "</div>"
    + Break(12) + "</div>"
    + Break(8)
  }

  /** `${x ? `<p>${x}</p>` : ''}` for `details` and `state`. */
  function Paragraph(text: Option<string>): (line: string)
    ensures line != "" <==> Truthy(text)
    ensures Truthy(text) ==> line == "<p>" + text.value + "</p>"
  {
    if Truthy(text) then "<p>" + text.value + "</p>" else ""
  }

  /** `timeStr`: the formatted time since `start` when it is truthy, else empty. */
  function ElapsedText(a: Activity, now: int): (t: string)
    ensures t != "" <==> HasStart(a)
  {
    if HasStart(a) then FormatTime(now - a.start.value) else ""
  }

  /** `${timeStr ? `<div class="activity-time">Playing for ${timeStr}</div>` : ''}` */
  function PlayingFor(timeStr: string): (line: string)
    ensures line != "" <==> timeStr != ""
  {
    if timeStr != "" then "<div class=\"activity-time\">Playing for " + timeStr + "</div>" else ""
  }

  /** The three optional lines of an activity card, each on its own line
      (empty when absent): details, state, and the time played. */
  function CardLines(a: Activity, now: int): (lines: seq<string>)
    ensures |lines| == 3
    ensures lines[0] != "" <==> Truthy(a.details)
    ensures Truthy(a.details) ==> lines[0] == "<p>" + a.details.value + "</p>"
    ensures lines[1] != "" <==> Truthy(a.state)
    ensures Truthy(a.state) ==> lines[1] == "<p>" + a.state.value + "</p>"
    ensures lines[2] != "" <==> HasStart(a)
    ensures HasStart(a) ==>
      lines[2] == "<div class=\"activity-time\">Playing for " + FormatTime(now - a.start.value) + "</div>"
  {
    [Paragraph(a.details), Paragraph(a.state), PlayingFor(ElapsedText(a, now))]
  }

  /** The card built for one activity inside `activities.map(...)`. */
  function ActivityCard(a: Activity, now: int): string {
    var lines := CardLines(a, now);
    Break(16) + "<div class=\"activity-card\">"
    + Break(20) + "<div class=\"activity-icon\">" + ActivityIcon(a.kind) + "</div>"
    + Break(20) + "<div class=\"activity-info\">"
    + Break(24) + "<h3>" + a.name + "</h3>"
    + Break(24) + lines[0]
    + Break(24) + lines[1]
    + Break(24) + lines[2]
    + Break(20) + "</div>"
    + Break(16) + "</div>"
    + Break(12)
  }

  /** An activity's card is the template's text, line by line. */
  lemma ActivityCardText(a: Activity, now: int)
    ensures var lines := CardLines(a, now);
      ActivityCard(a, now) ==
      "\n                " + "<div class=\"activity-card\">"
      + "\n                    " + "<div class=\"activity-icon\">" + ActivityIcon(a.kind) + "</div>"
      + "\n                    " + "<div class=\"activity-info\">"
      + "\n                        " + "<h3>" + a.name + "</h3>"
      + "\n                        " + lines[0]
      + "\n                        " + lines[1]
      + "\n                        " + lines[2]
      + "\n                    " + "</div>"
      + "\n                " + "</div>"
      + "\n            "
  {
    BreakLiterals();
  }

  /** The summed length of some strings. */
  function TotalLength(parts: seq<string>): nat {
    if parts == [] then 0 else |parts[0]| + TotalLength(parts[1..])
  }

  /** `Array.prototype.join('')`: every part, in order, with nothing between them. */
  function Join(parts: seq<string>): (s: string)
    ensures |s| == TotalLength(parts)
    ensures parts != [] ==> s[..|parts[0]|] == parts[0]
  {
    if parts == [] then "" else parts[0] + Join(parts[1..])
  }

  lemma {:induction false} JoinAppend(xs: seq<string>, ys: seq<string>)
    ensures Join(xs + ys) == Join(xs) + Join(ys)
    decreases |xs|
  {
    if xs != [] {
      calc {
        Join(xs + ys);
        (xs + ys)[0] + Join((xs + ys)[1..]);
        { assert (xs + ys)[1..] == xs[1..] + ys; }
        xs[0] + Join(xs[1..] + ys);
        { JoinAppend(xs[1..], ys); }
        xs[0] + (Join(xs[1..]) + Join(ys));
      }
    } else {
      assert xs + ys == ys;
    }
  }

  /** `activities.map(...)`: one card per activity, in the same order. */
  function ActivityCards(acts: seq<Activity>, now: int): (cards: seq<string>)
    ensures |cards| == |acts|
    ensures forall i :: 0 <= i < |acts| ==> cards[i] == ActivityCard(acts[i], now)
  {
    seq(|acts|, i requires 0 <= i < |acts| => ActivityCard(acts[i], now))
  }

  lemma ActivityCardsAppend(xs: seq<Activity>, ys: seq<Activity>, now: int)
    ensures ActivityCards(xs + ys, now) == ActivityCards(xs, now) + ActivityCards(ys, now)
  {
  }

  /** The activity container's new HTML. */
  function ActivitiesHtml(acts: Option<seq<Activity>>, now: int): (html: string)
    ensures acts.None? || acts.value == [] ==> html == NoActivityCard()
  {
    if acts.None? || |acts.value| == 0 then NoActivityCard() else Join(ActivityCards(acts.value, now))
  }

  /** A single activity yields its own card and nothing else. */
  lemma ActivitiesHtmlSingle(a: Activity, now: int)
    ensures ActivitiesHtml(Some([a]), now) == ActivityCard(a, now)
  {
    assert Join(ActivityCards([a], now)) == ActivityCard(a, now) + Join([]);
  }

  /** The cards of a list are the cards of its parts, in input order. */
  lemma ActivitiesHtmlAppend(xs: seq<Activity>, ys: seq<Activity>, now: int)
    requires xs != [] && ys != []
    ensures ActivitiesHtml(Some(xs + ys), now) == ActivitiesHtml(Some(xs), now) + ActivitiesHtml(Some(ys), now)
  {
    ActivityCardsAppend(xs, ys, now);
    JoinAppend(ActivityCards(xs, now), ActivityCards(ys, now));
  }

  /** The Spotify container's new HTML. */
  function SpotifyCard(t: SpotifyTrack): (html: string)
    ensures html ==
      "\n            " + "<div class=\"spotify-card\">"
      + "\n                " + "<img src=\"" + t.albumArtUrl + "\" alt=\"Album Art\" class=\"album-art\">"
      + "\n                " + "<div class=\"track-info\">"
      + "\n                    " + "<h3>" + t.song + "</h3>"
      + "\n                    " + "<div class=\"artist\">by " + t.artist + "</div>"
      + "\n                    " + "<div class=\"album\">on " + t.album + "</div>"
      + "\n                " + "</div>"
      + "\n            " + "</div>"
      + "\n        "
  {
    BreakLiterals();
    Break(12) + "<div class=\"spotify-card\">"
    + Break(16) + "<img src=\"" + t.albumArtUrl + "\" alt=\"Album Art\" class=\"album-art\">"
    + Break(16) + "<div class=\"track-info\">"
    + Break(20) + "<h3>" + t.song + "</h3>"
    + Break(20) + "<div class=\"artist\">by " + t.artist + "</div>"
    + Break(20) + "<div class=\"album\">on " + t.album + "</div>"
    + Break(16) + "</div>"
    + Break(12) + "</div>"
    + Break(8)
  }

  /** The avatar address on Discord's image CDN. */
  function AvatarUrl(id: string, hash: string): (url: string)
    ensures |url| == |"https://cdn.discordapp.com/avatars/"| + |id| + 1 + |hash| + |".png?size=256"|
    ensures url[..|"https://cdn.discordapp.com/avatars/"|] == "https://cdn.discordapp.com/avatars/"
    ensures url[|"https://cdn.discordapp.com/avatars/"|..][..|id|] == id
    ensures url[|"https://cdn.discordapp.com/avatars/"| + |id|] == '/'
    ensures url[|"https://cdn.discordapp.com/avatars/"| + |id| + 1..][..|hash|] == hash
    ensures url[|url| - |".png?size=256"|..] == ".png?size=256"
  {
    "https://cdn.discordapp.com/avatars/" + id + "/" + hash + ".png?size=256"
  }
}
