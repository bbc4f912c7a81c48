# cyber3 time tracker: a Dafny model of its store logic, login flow and helpers

cyber3 is a Deno application for tracking working time. Users sign in with Google, GitHub or
Twitter via OAuth 2.0 with PKCE (RFC 7636). The server keeps all of its data in one Deno KV
store. This project models the parts of the application that read and write that store or
compute the values written to it. The store is `Store.Kv`, a class whose `data` field maps keys
(sequences of string parts) to entries.

The store supports:

- `get`, `set` with an optional `expireIn`, and `delete`;
- prefix `list`, in the store's part-wise code-point key order (`Keys.KeyLess`);
- atomic batches that commit all of their writes or none of them, guarded by "key absent" checks.

The model covers these components:

- **Per-user data.** `UserData.UserKV` creates a user exactly once with a compare-and-set. It
  writes time entries, projects, clients and API keys under `["users", userId, ...]`, scans the
  user's time entries and looks up the user record.
- **Timer endpoints.** `TimeTracking` models the start and stop endpoints. Start writes the active
  marker and the entry in one batch. Stop closes the entry and deletes the marker in one batch,
  or answers 404 when there is no marker.
- **Sessions.** `Sessions.SessionManager` creates, reads and deletes session records that live
  for seven days.
- **Login flow.** `OAuthFlow` models the PKCE login flow:
  - the code verifier and the S256 challenge, built on `Base64` (RFC 4648), `Utf8` (RFC 3629)
    and the URL-safe transform;
  - the authorization URL, built on `FormUrlEncoded`, the application/x-www-form-urlencoded
    serializer of the WHATWG URL Standard;
  - the single-use state record;
  - the callback: state check, code exchange, per-provider profile mapping, session record and
    deletion of the state.
- **Provider table.** `Providers` builds the three provider records from the process
  environment.
- **Environment loader.** `EnvConfig` models the development-mode `.env` loader.
- **Browser widget.** `Tracker` models the `HH:MM:SS` formatter and the widget's state changes.

Every operation that uses the store shares one invariant, `Schema.WellFormed`: each key shape
holds the record kind its shape names. Each operation requires the invariant and keeps it.

The operations that change state come in two forms:

- Operations with several steps have a pure function of the old state, such as
  `TimeTracking.Stop`, `OAuthFlow.Callback` or `Tracker.StopTrackingStep`. A method's
  postcondition ties its result and the new state to that function, and lemmas state what the
  function guarantees. These are the timer endpoints, the OAuth request and callback, the
  widget handlers and the `.env` loader.
- The single-write methods of `UserKV` and `SessionManager` state the exact map update in their
  own postconditions. They all keep `Schema.WellFormed`. The `UserKV` writers also leave every
  key outside the user's subtree unchanged.

All values that come from outside are parameters:

- the clock and fresh UUIDs;
- the 32 random octets of the verifier;
- SHA-256, an uninterpreted function on octets;
- the two HTTP endpoints of the callback, functions from the request sent to the parsed answer
  or a failure;
- the replies the widget receives;
- the `.env` file's contents, or the error of reading it.

A `Date` is an integer count of milliseconds. A JavaScript `number` used as a rate or an amount
is a `real`.

The code shares the `["sessions", x]` name space between two writers:

- `createSession` writes session records under the session id;
- the OAuth callback writes provider-session records under the provider's user id.

The model keeps this as written. `Sessions.SessionManager.GetSession` states that a read may
return either kind.

## Model

| member | source | states |
|---|---|---|
| Strings.FirstIndex | app/config/env.ts:12 | the result is absent exactly when the character does not occur; otherwise it is the position of its first occurrence |
| Strings.FirstIndexAfter | app/config/env.ts:12 | in `a + [c] + b` with no `c` in `a`, the first `c` is the one right after `a` |
| Strings.Split | app/config/env.ts:9-12 | `split` yields at least one piece, and no piece contains the separator |
| Strings.JoinSplit | app/config/env.ts:12-13 | joining the pieces of a split with the separator gives back the string |
| Strings.SplitJoin | auth/oauth.ts:59 | splitting a join of separator-free parts gives back the parts |
| Strings.SplitAt | app/config/env.ts:12 | a split stops at the first separator and splits the rest independently |
| Strings.SplitHeadTail | app/config/env.ts:12-13 | `[key, ...valueParts] = t.split('='); valueParts.join('=')` gives the text before the first '=' and everything after it |
| Strings.ReplaceAll | auth/oauth.ts:15-16 | `replace(/c/g, d)` keeps the length and swaps exactly the occurrences of `c` |
| Strings.RemoveAll | auth/oauth.ts:17 | `replace(/c/g, '')` leaves no `c` and keeps every other character |
| Strings.ReplaceAllConcat | auth/oauth.ts:14-17 | replacing distributes over concatenation |
| Strings.RemoveAllConcat | auth/oauth.ts:14-17 | removal distributes over concatenation |
| Strings.TrimStart | app/config/env.ts:10 | the result is a suffix of the input, everything dropped is whitespace, and the result does not start with whitespace |
| Strings.TrimEnd | app/config/env.ts:10 | the result is a prefix of the input, everything dropped is whitespace, and the result does not end with whitespace |
| Strings.TrimShape | app/config/env.ts:10-15 | a trimmed string neither starts nor ends with whitespace |
| Strings.TrimEmptyIff | app/config/env.ts:10-11 | `trim()` is empty exactly when the line is all whitespace |
| Strings.TrimIdempotent | app/config/env.ts:10-15 | trimming twice is trimming once |
| Strings.DigitChar | functions/time/tracker.ts:33-35 | the digit character's code is '0' plus the digit |
| Strings.NatToString | functions/time/tracker.ts:33-35 | `toString()` of a whole number is a non-empty string of decimal digits |
| Strings.NatToStringRoundTrip | functions/time/tracker.ts:33-35 | reading the decimal digits back gives the number |
| Strings.NatToStringLength | functions/time/tracker.ts:33-35 | the number has one digit below 10, two below 100 and at least three from 100 up |
| Strings.DigitsValueLeadingZero | functions/time/tracker.ts:33-35 | a leading '0' from `padStart` does not change the value |
| Strings.PadStart | functions/time/tracker.ts:33-35 | `padStart(w, f)` reaches width `w`, keeps the string as its suffix, fills with `f` and never truncates |
| Keys.KeyLessSamePrefix | kv/mod.ts:127 | keys that differ only in their last part are ordered by that part |
| Keys.StrLessAsymmetric | kv/mod.ts:127 | the string order is asymmetric |
| Keys.StrLessTransitive | kv/mod.ts:127 | the string order is transitive |
| Keys.StrLessTotal | kv/mod.ts:127 | any two distinct strings are ordered |
| Keys.KeyLessAsymmetric | kv/mod.ts:127 | the key order is asymmetric |
| Keys.KeyLessTransitive | kv/mod.ts:127 | the key order is transitive |
| Keys.KeyLessTotal | kv/mod.ts:127 | any two distinct keys are ordered |
| Keys.LeastExists | kv/mod.ts:127-131 | every non-empty finite set of keys has a least member |
| Keys.LeastUnique | kv/mod.ts:127-131 | the least member is unique |
| Keys.SortedKeys | kv/mod.ts:127-131 | the ascending listing of a key set has exactly its members, each once, strictly increasing |
| Keys.SortedKeysLeast | kv/mod.ts:127-131 | the listing starts with the least member, followed by the listing of the rest |
| Keys.SortedUnique | kv/mod.ts:127-131 | two strictly sorted sequences with the same members are equal |
| Keys.TailMembers | kv/mod.ts:127-131 | sorted sequences with the same members and the same head have the same members after it |
| Store.ApplyAllOne | kv/mod.ts:106-109 | a batch of one write has that write's effect |
| Store.ApplyAllTwo | functions/time/start.ts:15-18 | a batch of two writes applies them in order |
| Store.ListingShape | kv/mod.ts:127-131 | a prefix listing holds every entry strictly under the prefix once, with its stored value, in ascending key order |
| Store.Kv.Get | auth/session.ts:35 | `get` answers the stored value exactly when the key is present |
| Store.Kv.Set | kv/mod.ts:122 | `set` overwrites one key with the value and its TTL and changes nothing else |
| Store.Kv.Delete | auth/session.ts:40 | `delete` removes one key; an absent key is no error |
| Store.Kv.List | kv/mod.ts:127 | draining `list({prefix})` yields the listing of the keys strictly under the prefix, in key order |
| Store.Kv.Commit | kv/mod.ts:106-109 | a batch commits exactly when every checked key is absent; it then makes all its writes in order, and otherwise changes nothing |
| Schema.PutWellFormed | kv/mod.ts:122 | writing a record of the kind its key names keeps the invariant |
| Schema.RemoveWellFormed | functions/time/stop.ts:16 | deleting a key keeps the invariant |
| Schema.PutConfined | kv/mod.ts:122 | a write under a prefix leaves every key outside it unchanged |
| Schema.KeySpacesDisjoint | kv/mod.ts:88-161 | the marker, entry, user, session and state keys never coincide; every per-user key lies under `["users", userId]` |
| UserData.InitialUserShape | kv/mod.ts:88-103 | the new user keeps the given id, email, name and createdAt, and owns exactly one database, "default", whose five lists are empty |
| UserData.TimeEntryKeyShape | kv/mod.ts:127 | under the invariant, a key strictly under the time-entry prefix is the time-entry key of the entry it holds |
| UserData.TimeEntryKeyOrder | kv/mod.ts:127 | a user's time-entry keys are ordered by their ids |
| UserData.TimeEntryListing | kv/mod.ts:126-133 | the listing under a user's time-entry prefix holds each of that user's entries once, under its own id, in ascending id order |
| UserData.TimeEntriesRead | kv/mod.ts:129-131 | entries read off that listing in order are stored under their ids, include every stored id and ascend |
| UserData.UserKV.constructor | kv/mod.ts:81-84 | the handle is bound to the store and the user id |
| UserData.UserKV.CreateUserDatabase | kv/mod.ts:87-116 | succeeds exactly when `["users", id]` was absent, then stores the initial user there only; otherwise fails with UserAlreadyExists and changes nothing |
| UserData.UserKV.AddTimeEntry | kv/mod.ts:119-124 | stores the input with the fresh id at `["users", userId, "timeEntries", id]` only, and returns the stored record |
| UserData.UserKV.GetTimeEntries | kv/mod.ts:126-133 | returns the listed entries in key order: each is stored under its id, every stored entry is returned, ids ascend, and nothing is written |
| UserData.UserKV.AddProject | kv/mod.ts:136-141 | stores the project with the fresh id at `["users", userId, "projects", id]` only |
| UserData.UserKV.AddClient | kv/mod.ts:144-149 | stores the client with the fresh id at `["users", userId, "clients", id]` only |
| UserData.UserKV.CreateApiKey | kv/mod.ts:152-163 | stores the key with the given name and permissions, a fresh id and secret, created and last used now, at `["users", userId, "apiKeys", id]` only |
| UserData.UserKV.GetUser | kv/mod.ts:166-172 | answers the stored user record exactly when `["users", userId]` is present, otherwise UserNotFound; never writes |
| TimeTracking.StartEffect | functions/time/start.ts:4-18 | the marker and the entry key hold the identical new entry: open, no project, empty description, no tags, rate 0; nothing else changes and the invariant holds |
| TimeTracking.StartOrphansPrevious | functions/time/start.ts:14-18 | starting over an active entry overwrites the marker and leaves the earlier entry stored as it was |
| TimeTracking.StopEffect | functions/time/stop.ts:5-17 | with no marker: 404 and nothing changes; otherwise the marked entry gets end time `now` with every other field kept, is stored under its id, the marker is deleted and nothing else changes |
| TimeTracking.StartThenStop | functions/time/stop.ts:5-17 | start then stop closes exactly the started entry and leaves no marker; a second stop answers 404 and changes nothing |
| TimeTracking.StartTimeTracking | functions/time/start.ts:1-23 | returns the new entry, and the store becomes the start state |
| TimeTracking.StopTimeTracking | functions/time/stop.ts:1-22 | the answer and the new store are those of `Stop` |
| Sessions.SessionReadKinds | auth/session.ts:34-37 | under the invariant, a value read from `["sessions", id]` is a session with that id or a provider session of that user |
| Sessions.SessionLifecycle | auth/session.ts:25-40 | a created session reads back as itself, and reads as nothing once deleted; other keys are untouched |
| Sessions.SessionManager.constructor | auth/session.ts:12-14 | the manager is bound to the store |
| Sessions.SessionManager.CreateSession | auth/session.ts:16-32 | stores and returns the session with the given user and provider, created now, expiring 604800000 ms later, with the same TTL; it then reads back as itself and every other key is untouched |
| Sessions.SessionManager.GetSession | auth/session.ts:34-37 | answers the stored value or nothing, never writes, and the value is one of the two kinds kept there |
| Sessions.SessionManager.DeleteSession | auth/session.ts:39-41 | removes only `["sessions", id]`, which then reads as nothing; an absent id is no error |
| Utf8.EncodeChar | auth/oauth.ts:21-22 | the code point becomes one to four octets, with length ranges, lead-octet ranges and continuation octets as in RFC 3629 |
| Utf8.DecodeEncodeChar | auth/oauth.ts:21-22 | each encoded character decodes back to its code point |
| Utf8.EncodeConcat | auth/oauth.ts:21-22 | encoding distributes over concatenation |
| Utf8.EncodeAscii | auth/oauth.ts:21-22 | an ASCII string encodes to one octet per character, equal to its code |
| Base64.GroupSextets | auth/oauth.ts:14 | a final group of one to three octets gives two to four 6-bit values |
| Base64.Chars | auth/oauth.ts:14 | each 6-bit value becomes its alphabet character |
| Base64.SextetRoundTrip | auth/oauth.ts:15-16 | the URL-safe character of a value decodes to it, and the transform maps the standard character to the URL-safe one |
| Base64.ToUrlSafeClean | auth/oauth.ts:14-17 | the output of the transform contains no '+', '/' or '=' |
| Base64.ToUrlSafeConcat | auth/oauth.ts:14-17 | the transform distributes over concatenation |
| Base64.ToUrlSafeChars | auth/oauth.ts:15-16 | the transform turns standard alphabet text into URL-safe alphabet text |
| Base64.PaddingRemoved | auth/oauth.ts:17 | padding disappears entirely |
| Base64.UrlSafeOfStandard | auth/oauth.ts:14-17 | the transform applied to the standard padded encoding gives the unpadded base64url encoding of RFC 4648 section 5 |
| Base64.EncodedLength | auth/oauth.ts:12-17 | the padded encoding has 4·⌈n/3⌉ characters, the unpadded one drops the padding, so 32 octets give 43 characters |
| Base64.UrlAlphabetOnly | auth/oauth.ts:14-17 | base64url text uses only A-Z, a-z, 0-9, '-' and '_' |
| Base64.GroupArithmetic | auth/oauth.ts:14 | the 6-bit values of three octets pack back into them |
| Base64.GroupRoundTrip | auth/oauth.ts:14 | decoding a group's characters gives back the group |
| Base64.DecodeEncodeUrl | auth/oauth.ts:14-17 | decoding the base64url encoding gives back the octets |
| FormUrlEncoded.PairTexts | auth/oauth.ts:49-57 | one `name=value` text for each pair, in order |
| FormUrlEncoded.EncodedPairs | auth/oauth.ts:49-57 | the pairs' names and values as UTF-8 octets, in order |
| FormUrlEncoded.HexRoundTrip | auth/oauth.ts:59 | an upper-case hex digit reads back as its value |
| FormUrlEncoded.EncodeOctetsNoSeparators | auth/oauth.ts:59 | an escaped component contains neither '&' nor '=' |
| FormUrlEncoded.DecodeOctet | auth/oauth.ts:59 | percent-decoding reads one escaped octet back and continues after it |
| FormUrlEncoded.DecodeEncodeOctets | auth/oauth.ts:59 | percent-decoding undoes the escaping |
| FormUrlEncoded.ParsePairText | auth/oauth.ts:59 | a parser reads one `name=value` text back as the two octet strings |
| FormUrlEncoded.ParsePiecesPairs | auth/oauth.ts:59 | the pieces read back as the encoded pairs, in order |
| FormUrlEncoded.ParseSerialize | auth/oauth.ts:49-59 | parsing `URLSearchParams.toString()` gives back every name and value, in order |
| Providers.CreateProvider | auth/providers/mod.ts:29-50 | builds every field of the provider from the arguments and the environment; the two lemmas below state what follows for any provider name |
| Providers.CreateProviderCredentials | auth/providers/mod.ts:36-37 | for any provider name, a non-empty credential is the value of `<NAME>_CLIENT_ID` / `<NAME>_CLIENT_SECRET`; a credential is empty exactly when its variable is unset or empty |
| Providers.CreateProviderCallbacks | auth/providers/mod.ts:38-48 | the callback is APP_URL (or "undefined" when unset) followed by "/auth/callback/" and the name; two different names never give the same callback |
| Providers.GoogleCredentials | auth/providers/mod.ts:58-64 | Google's credentials come from GOOGLE_CLIENT_ID and GOOGLE_CLIENT_SECRET |
| Providers.GitHubCredentials | auth/providers/mod.ts:66-72 | GitHub's credentials come from GITHUB_CLIENT_ID and GITHUB_CLIENT_SECRET |
| Providers.UpperTwitter | auth/providers/mod.ts:74-80 | "twitter" upper-cases to "TWITTER" |
| Providers.TwitterCredentials | auth/providers/mod.ts:74-80 | Twitter's credentials come from TWITTER_CLIENT_ID and TWITTER_CLIENT_SECRET |
| Providers.ProviderNames | auth/providers/mod.ts:57-82 | the providers are named google, github and twitter and carry the listed scopes |
| Providers.DistinctCallbacks | auth/providers/mod.ts:48 | the three callback addresses are pairwise distinct |
| Providers.ProviderRegistry.constructor | auth/providers/mod.ts:53-55 | the three provider variables start unset |
| Providers.ProviderRegistry.InitializeProviders | auth/providers/mod.ts:57-83 | assigns and returns the Google, GitHub and Twitter providers built from the environment |
| OAuthFlow.CodeVerifierConforms | auth/oauth.ts:11-18 | the verifier of 32 octets is their base64url encoding: 43 unreserved characters (RFC 7636 section 4.1) that decode back to the octets |
| OAuthFlow.CodeChallengeIsS256 | auth/oauth.ts:20-28 | for an ASCII verifier the challenge is BASE64URL(SHA256(ASCII(verifier))), the S256 method of RFC 7636 section 4.2, and a 32-octet digest gives 43 characters |
| OAuthFlow.AuthUrlQuery | auth/oauth.ts:49-59 | the URL is the endpoint, '?' and a query that parses back, in order, as client_id, redirect_uri, response_type=code, the space-joined scope, state, code_challenge and code_challenge_method=S256 |
| OAuthFlow.TokenRequestBody | auth/oauth.ts:74-90 | the code exchange is a POST to the token URL whose body parses back as the six form fields, in order |
| OAuthFlow.Profile | auth/oauth.ts:104-120 | google: (email, name); github: (email, name unless missing or empty, else login); twitter: (data.email, data.name), failing when `data` is missing; any other provider: ('', '') |
| OAuthFlow.AuthRequestEffect | auth/oauth.ts:30-47 | the state record holds the provider's name, a conforming verifier, the redirect address and the instant, for 600000 ms; nothing else changes and the invariant holds |
| OAuthFlow.CallbackEffect | auth/oauth.ts:62-144 | an absent state gives InvalidState; a failure changes nothing; a success stores the session (user id from the profile, tokens from the exchange that sent the stored verifier, expiry now + expires_in·1000) under `["sessions", userId]` for seven days and deletes the state |
| OAuthFlow.CallbackReplay | auth/oauth.ts:68-141 | after a successful callback, replaying the same state fails with InvalidState and changes nothing |
| OAuthFlow.CallbackSendsStoredVerifier | auth/oauth.ts:74-92 | the callback's outcome depends on the token endpoint only through the exchange of the code with the stored verifier |
| OAuthFlow.PkceRoundTrip | auth/oauth.ts:30-81 | after a login starts, its callback passes the state check, and the verifier it posts has exactly the challenge the authorization URL carried |
| OAuthFlow.OAuth.constructor | auth/oauth.ts:7-9 | the handle is bound to the store |
| OAuthFlow.OAuth.CreateAuthRequest | auth/oauth.ts:30-60 | returns the authorization URL with the state and the challenge of the fresh verifier, and stores the state record |
| OAuthFlow.OAuth.HandleCallback | auth/oauth.ts:62-144 | the answer and the new store are those of `Callback` |
| EnvConfig.ParseLineFirstEquals | app/config/env.ts:10-15 | a line assigns exactly when its trimmed form is non-empty, is not a comment and has text on both sides of its first '='; the key and value are those two texts, trimmed |
| EnvConfig.AssignedNonEmpty | app/config/env.ts:10-15 | every assigned name and value is non-empty and trimmed, and the name has no '=' |
| EnvConfig.TrimInside | app/config/env.ts:15 | trimming keeps only characters of the original |
| EnvConfig.LastWinsDomain | app/config/env.ts:9-19 | after the assignments a variable is set exactly when it was set before or some assignment sets it |
| EnvConfig.LastWinsValue | app/config/env.ts:9-19 | its value is the one of the last assignment that sets it |
| EnvConfig.LastWinsUntouched | app/config/env.ts:9-19 | a variable that no assignment sets keeps its old state |
| EnvConfig.LastWins | app/config/env.ts:9-19 | loading a file leaves the variables of the old environment and the file, with the last line assigning each one deciding its value |
| EnvConfig.ProcessEnv.constructor | app/config/env.ts:2 | the process environment starts as given |
| EnvConfig.ProcessEnv.LoadEnvironment | app/config/env.ts:1-28 | outside development nothing changes; in development a failed read is passed on with nothing set, and otherwise the lines are applied in order |
| Tracker.TwoDigitsValue | functions/time/tracker.ts:33-35 | the padded number keeps its value; it has exactly two digits below 100 and is never truncated |
| Tracker.SplitThree | functions/time/tracker.ts:33-35 | three colon-free fields joined by ':' split back into themselves |
| Tracker.ClockArithmetic | functions/time/tracker.ts:29-31 | the hours, minutes and seconds add up to the whole seconds of `ms` |
| Tracker.FormatTimeFields | functions/time/tracker.ts:28-36 | `formatTime` gives three digit fields: hours of at least two digits, never truncated; minutes and seconds of exactly two digits, below 60; read back they give ms div 1000 seconds |
| Tracker.StartTrackingOutcome | functions/time/tracker.ts:45-65 | the handler ends not loading; an ok reply starts tracking from the entry's start with its timer running; otherwise only the message and the loading flag change |
| Tracker.StopTrackingOutcome | functions/time/tracker.ts:67-89 | the handler ends not loading; an ok reply stops tracking and clears the current timer; otherwise only the message and the loading flag change |
| Tracker.RestartLeaksTimer | functions/time/tracker.ts:38-43 | two starts before a stop leave the first interval running after the stop |
| Tracker.StartStopIdle | functions/time/tracker.ts:38-89 | start, a tick and stop from the initial widget leave it idle with no timer running and the last elapsed time kept |
| Tracker.TimeTracker.constructor | functions/time/tracker.ts:3-8 | the widget starts not tracking, not loading, with no start, zero elapsed time, no timer and an empty message |
| Tracker.TimeTracker.StartTimer | functions/time/tracker.ts:38-43 | `startTimer` sets tracking and stores the new timer handle |
| Tracker.TimeTracker.Tick | functions/time/tracker.ts:40-42 | the interval callback sets the elapsed time since the start |
| Tracker.TimeTracker.CheckActiveTimeEntry | functions/time/tracker.ts:15-26 | an ok reply resumes the timer from the entry's start; any other reply changes nothing |
| Tracker.TimeTracker.StartTracking | functions/time/tracker.ts:45-65 | the fields change as `StartTrackingStep` says |
| Tracker.TimeTracker.StopTracking | functions/time/tracker.ts:67-89 | the fields change as `StopTrackingStep` says |

## Left out

- Store.Kv.Set: a TTL (`expireIn`) is recorded with the entry, but expiry is not modelled. An expired session or state stays readable in the model.
- Concurrency is not modelled. Each operation runs alone against the store; the only atomicity modelled is that of one batch.
- HTTP is not modelled: the main.ts routing, `Response` construction, headers, cookies and status codes other than the stop endpoint's 404. main.ts, kv/cmd.ts, static/sw.js and functions/feature-card.ts are not part of this model.
- Console logging is left out; it has no effect on state.
- `crypto.randomUUID`, `crypto.getRandomValues` and the clock are parameters. `crypto.subtle.digest('SHA-256')` is an uninterpreted function. Each operation reads the clock once. The code reads it twice in two places. `createApiKey` sets createdAt and lastUsed from one instant. `createSession` takes createdAt from `new Date()` and expiresAt from `Date.now()` (auth/session.ts:21-22); the model takes both from one `now`, so expiresAt is exactly createdAt plus seven days.
- OAuthFlow.Callback: the two HTTP exchanges are functions from the request to the parsed answer, or None for a failed request or unparsable JSON.
  - A non-ok status whose body still parses is treated like any other answer, as the code does.
  - A token answer without `access_token` or `expires_in` is not modelled; the code would store `undefined` or an invalid date.
- OAuthFlow.UserInfo: the profile `id` is a string. GitHub sends a number, which the code stores as a number key part; that case is not modelled.
- OAuthFlow.Callback: the code stores `email` and `name` as whatever the profile holds, possibly `undefined`. The model keeps them as `Option<string>`, None for absent.
- OAuthFlow.HttpRequest: a request body is kept as its form fields. Its serialized text is `Body`, the fields' `URLSearchParams` serialization.
- FormUrlEncoded.Parse: the parser's final UTF-8 decoding of the octets is not modelled. The round trip is stated on octets (`EncodedPairs`).
- OAuthFlow.CallbackEffect: the callback does not compare the stored state's provider or redirect address with the request's. The model, like the code, leaves them unused.
- Providers.CreateProvider: `toUpperCase` is modelled for ASCII only (`Strings.UpperAscii`). The provider names in the table are ASCII.
- EnvConfig.ProcessEnv.LoadEnvironment: `Deno.env.set` never fails in the model. The runtime rejects names that are empty or contain '=' or NUL; the parser never produces an empty name or one with '='.
- EnvConfig.ProcessEnv.LoadEnvironment: reading `.env` is a parameter holding the text or the error.
- Tracker.FormatTime: modelled for non-negative whole milliseconds only. Negative or fractional input, where `Math.floor` and `toString` behave differently, is not modelled.
- Tracker.TimeTracker: `setInterval`, `clearInterval`, `fetch` and `Date.now` are parameters.
  - The reply of each request is an input.
  - A timer is a handle kept in a ghost set of running timers.
  - The one-second tick is a method the caller invokes.
  - Nothing is said about timing.
