# Gaming profile presence view, modelled in Dafny

The page `script.js` drives shows a Discord user's live presence. Each
time a fetch of the user's presence settles, the `GamingProfile` class maps
it onto a fixed set of page fields:

- the avatar image source;
- the username text;
- the status text, the status indicator's class and the status ring colour;
- the activity container's HTML;
- the Spotify section's `display` and the Spotify container's HTML.

This project models that presence-to-view mapping:

- `decimal.dfy` (module `Decimal`) writes whole numbers the way a template
  literal interpolates them.
- `presence.dfy` (module `Presence`) holds the payload as datatypes, with
  JavaScript truthiness for the optional fields. It also holds the outcome
  of one fetch: either something threw, or an envelope `{success, data}` arrived.
- `render.dfy` (module `Render`) holds the pure builders:
  - the status colour and status message tables, each with its fallback;
  - the indicator class;
  - the activity icon table;
  - `formatTime`;
  - the card templates, written out with their exact line breaks and
    indentation. The source file has CRLF line ends, which a template
    literal turns into `\n`.
- `profile.dfy` (module `Profile`) holds the page. `PageView` is the value
  of the eight fields. `ProfileUpdate`, `ActivitiesUpdate`, `SpotifyUpdate`
  and `ErrorUpdate` say what each update does to that value, and `Load`
  dispatches one fetch outcome. The class `Page` keeps the eight fields and
  updates them in place. Each of its methods writes only the fields its
  `modifies` clause names, and is proved equal to the matching function.

`Date.now()` is a parameter, `now`. The fetch itself is an input,
`FetchOutcome`.

Some behaviours of the code worth noting:

- An unknown status falls back to the offline colour (grey). Its text,
  though, is `Unknown Status`, not the offline message.
- There is no default avatar. Without an avatar hash the image keeps its
  previous `src`.
- An envelope with `success: false` changes nothing and shows no error.
  Only a thrown exception reaches `showError`.
- An envelope with `success: true` but no `data` makes `updateProfile`
  throw before it assigns anything. The catch then shows the error card.
- A `timestamps.start` of `0` is falsy. Such an activity gets no
  "Playing for" line.

## Model

| member | source | states |
|---|---|---|
| `Decimal.NatToString` | script.js:242-246 | the numeral of a whole number is non-empty and all digits; it has one digit iff the number is below ten; it starts with `0` only for zero |
| `Decimal.ValueOfNatToString` | script.js:242-246 | reading the numeral back as a decimal number gives the number |
| `Decimal.NatToStringInjective` | script.js:242-246 | two numbers have the same numeral iff they are equal |
| `Decimal.IntToString` | script.js:242-246 | an integer's text starts with `-` iff it is negative, followed by the magnitude's numeral; a non-negative integer's text is exactly its numeral, without leading zeros, and reads back as the integer |
| `Render.StatusColor` | script.js:226-234 | online, idle, dnd and offline get `#00FF00`, `#FFA500`, `#FF0000` and `#808080`; every status outside the table gets the offline colour |
| `Render.StatusColorGrey` | script.js:226-234 | grey is shown iff the status is `offline` or outside the table |
| `Render.StatusColorDistinguishesKnown` | script.js:227-232 | the four known statuses get four different colours |
| `Render.StatusTablesShareKeys` | script.js:149-156 | the message table knows exactly the statuses of the colour table: online, idle, dnd and offline |
| `Render.StatusMessage` | script.js:149-156 | the text is `Unknown Status` iff the status is outside the table; a known status shows its own message |
| `Render.IndicatorClass` | script.js:157 | the class is `status-indicator status-` followed by the raw status, unknown values included |
| `Render.IndicatorClassInjective` | script.js:157 | two statuses share an indicator class iff they are equal |
| `Render.ActivityIcon` | script.js:178-186 | types 0, 1, 2, 3 and 5 get 🎮, 📺, 🎵, 👀 and 🏆; every type outside the table gets the Playing icon 🎮 |
| `Render.ActivityIconPlaying` | script.js:178-186 | the Playing icon is shown iff the type is not 1, 2, 3 or 5, so type 4 shows it too |
| `Render.ActivityIconDistinguishesKnown` | script.js:178-184 | the five known types get five different icons |
| `Render.FormatTime` | script.js:236-248 | the text is at least two characters long; it ends in `s` iff less than a minute has elapsed |
| `Render.FormatTimeSeconds` | script.js:236-247 | for 0 ≤ ms < 60000 the text is the whole seconds followed by `s` |
| `Render.FormatTimeMinutes` | script.js:236-244 | for 60000 ≤ ms < 3600000 the text is the whole minutes followed by `m` |
| `Render.FormatTimeHours` | script.js:236-242 | from one hour on, the text is `{h}h {m}m`. Here h is the whole hours and m the leftover whole minutes. m lies in 0..59, and 60·h + m is the total of whole minutes |
| `Render.FormatTimeNegative` | script.js:236-247 | a negative elapsed time shows as `-{n}s`, with n = ⌈−ms/1000⌉ ≥ 1 |
| `Render.FormatTimeExamplesShort` | script.js:236-247 | 45000 → `45s`, 59999 → `59s`, 60000 → `1m`, 125000 → `2m` |
| `Render.FormatTimeExamplesLong` | script.js:236-247 | 3600000 → `1h 0m`, 5400000 → `1h 30m`, −1 → `-1s` |
| `Render.Paragraph` | script.js:195-196 | the details and state lines are non-empty iff the field is non-empty, and then wrap exactly that text in a paragraph |
| `Render.ElapsedText` | script.js:187-188 | the time text is non-empty iff `timestamps.start` is truthy |
| `Render.PlayingFor` | script.js:197 | the "Playing for" line is present iff the time text is non-empty |
| `Render.CardLines` | script.js:194-197 | an activity card has three optional lines. The details line is present iff `details` is non-empty. The state line is present iff `state` is non-empty. The time line is present iff `start` is truthy, and then shows `formatTime(now - start)`. When present, the details and state lines are `<p>` around the field's text |
| `Render.ActivityCardText` | script.js:190-200 | an activity's card is the template's literal text, line breaks and indentation included, with the type's icon, the name and the three optional lines in order |
| `Render.NoActivityCard` | script.js:165-173 | the no-activity card is the template's literal text, line breaks and indentation included |
| `Render.Join` | script.js:201 | `join('')` keeps every part: its length is the parts' total length, and it starts with the first part |
| `Render.JoinAppend` | script.js:201 | joining two lists of cards gives the two joins one after the other |
| `Render.ActivityCards` | script.js:177-201 | `map` builds one card per activity |
| `Render.ActivityCardsAppend` | script.js:177-201 | the cards of a concatenated list are the cards of its parts, in order |
| `Render.ActivitiesHtml` | script.js:164-175 | a missing or empty list yields exactly the "No Current Activity" card |
| `Render.ActivitiesHtmlSingle` | script.js:177-201 | a one-activity list yields exactly that activity's card |
| `Render.ActivitiesHtmlAppend` | script.js:177-201 | the HTML of a list is the HTML of its parts, in input order |
| `Render.SpotifyCard` | script.js:214-223 | the Spotify card is the template's literal text, line breaks and indentation included, with art URL, song, artist and album in place |
| `Render.ErrorCard` | script.js:293-301 | the error card is the template's literal text, line breaks and indentation included |
| `Render.AvatarUrl` | script.js:140 | the avatar URL is the CDN prefix, then the user id, then `/`, the hash and `.png?size=256` |
| `Profile.DisplayName` | script.js:145 | the shown name is `global_name` when non-empty, else `username` |
| `Profile.ProfileUpdate` | script.js:130-159 | the avatar becomes the CDN URL only when a hash is given; otherwise it keeps its value. Name, status text, indicator class and ring colour come from the lookups. Activity and Spotify fields are untouched |
| `Profile.ActivitiesUpdate` | script.js:161-202 | only the activity container changes, and it becomes the activity list's HTML; a missing or empty list gives the no-activity card |
| `Profile.SpotifyUpdate` | script.js:204-224 | the section is hidden iff not listening or no track, and shown (`block`) otherwise. When hidden, the container is left as it was. When shown, it holds the track's card. Nothing else changes |
| `Profile.SpotifyHidden` | script.js:208 | the section is hidden whenever not listening, whatever the track, and whenever there is no track; it is shown only when listening with a track |
| `Profile.ErrorUpdate` | script.js:291-302 | only the activity container changes, to the error card |
| `Profile.Load` | script.js:114-128 | `success: false` changes nothing. A thrown fetch shows the error and nothing else. `success` without `data` shows the error too. `success` with `data` runs the three updates |
| `Profile.ErrorKeepsIdentity` | script.js:124-127 | after a thrown fetch, avatar, name, status fields and Spotify fields are unchanged, and the activity container holds the error card |
| `Profile.ApplySnapshot` | script.js:120-122 | a successful load sets name, status fields and activity HTML from the payload. It sets the avatar only when a hash is given. It shows Spotify (`block`, with the track's card) iff listening with a track, and otherwise hides it and keeps the container |
| `Profile.LoadIdempotent` | script.js:114-128 | loading the same outcome twice leaves the page as loading it once |
| `Profile.LoadReplacesWholesale` | script.js:119-123 | after a successful load the page no longer depends on the page before. The exceptions are the avatar when no hash is given and the container of a hidden Spotify section |
| `Profile.UpdatesCommute` | script.js:120-122 | the three updates write disjoint fields, so running them in the opposite order gives the same page |
| `Profile.Page.UpdateProfile` | script.js:130-159 | writes only the avatar, name and status fields, as `ProfileUpdate` says |
| `Profile.Page.UpdateActivities` | script.js:161-202 | writes only the activity container, as `ActivitiesUpdate` says |
| `Profile.Page.UpdateSpotify` | script.js:204-224 | writes only the Spotify display and container, as `SpotifyUpdate` says |
| `Profile.Page.ShowError` | script.js:291-302 | writes only the activity container, with the error card |
| `Profile.Page.LoadProfile` | script.js:114-128 | runs profile, activities and Spotify updates in that order on success. It does nothing on `success: false` and shows the error on an exception. The new page is `Load` of the old one |

## Left out

- The network fetch, `response.json()` and the 30-second polling timer are not modelled. A fetch's result is the input `FetchOutcome`, and a run of polls is a sequence of `LoadProfile` calls. Responses that resolve out of order just arrive in a different sequence. No in-flight bookkeeping exists to model.
- The payload is already decoded into typed values, so a malformed payload is not modelled. An activity entry that is `null` makes `updateActivities` throw part-way: the five profile fields are already written, then the catch shows the error card. A missing `discord_user` has the same outcome as a missing `data`, which `Load` models: `updateProfile` throws at its first read, before any field is written, and only the error card appears.
- The catch's `console.error` trace is not modelled. It writes to the console, not to the page.
- `Render.FormatTime` uses exact integer division. In JavaScript `ms` is a double, and `Math.floor(ms / 1000)` agrees with exact division only while the magnitude of `ms` stays well below 2^52. Realistic elapsed times are far below that.
- The source reads `Date.now()` once per activity card. The model uses one `now` for the whole render.
- The lookup tables are plain maps over their keys. JavaScript object lookup would also find inherited properties such as `constructor`, and those are not modelled.
- Strings are sequences of Unicode code points, not UTF-16 code units.
- Numbers are interpolated as plain decimal integers. JavaScript's exponent form for magnitudes of 10^21 and above is not modelled.
- The browser's handling of the assigned values is not modelled: `innerHTML` parsing, URL resolution of `src`, and CSS parsing of `borderColor`. Each field holds the string assigned to it.
- HTML escaping is not modelled, and no sanitisation property is claimed. The templates interpolate raw strings.
- These are not modelled: the custom cursor, scroll parallax and card reveal, the Web Audio background music, and the music button's `isPlaying` toggle. The glitch effect, floating particles and keyboard shortcuts are out too. They are DOM event handlers, timers, randomness and a foreign audio API, with no presence data involved.
