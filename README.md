# beat: a Dafny model of the playback session, favorites and auth flows

beat is a music web application. A React client searches a catalog, plays full tracks in
a bottom player, and keeps a list of favorite tracks. An Express server signs users up and
in and records transactions. This project models the parts of it that hold logic:

- the **playback session** (`PlayerContext` and `BottomPlayer`). It is a class whose
  handlers update the shared state and send commands to one audio element, modelled as a
  device that logs what it was told. Beside it sits a pure step function, which the
  handlers are proved to follow and about which the session's invariants are proved;
- the **favorites** of the music page (a set of ids) and of the favorites page (a list
  with an optimistic remove that rolls back);
- the client's **session state** (the stored token and `isAuth`): the route guards, the
  header, the sign-in and sign-up pages, and the request client's two interceptors;
- the **server handlers**: sign-up and sign-in over a user table, and listing and
  creating transactions under the transaction schema.

Replies from the network and the server are parameters of the handlers
(`Reply<T> = Ok(data) | Err(error)`), so every branch is covered for every outcome.
Hashing, comparing and signing are function parameters. The clock is a parameter.
`localStorage` is an `Option<string>` field, and navigation records the target path.

Track ids are a datatype `Id = Str(s) | Num(n)`. Datatype equality stands for
JavaScript's `===`, and `ToStr` for `String(...)`, so the two ways the client compares
ids stay distinct.

Files, one module each:

- `js_values.dfy`: absent values, truthiness, `trim`, `String(n)`
- `tracks.dfy`: ids and tracks
- `time_format.dfy`: `formatTime`
- `player.dfy`: the session
- `app.dfy`: routes
- `client_session.dfy`: storage, `isAuth` and location
- `header.dfy`
- `axios_instance.dfy`
- `sign_in.dfy`
- `sign_up.dfy`
- `music.dfy`
- `favorites.dfy`
- `auth_controller.dfy`
- `transaction_model.dfy`
- `transaction_controller.dfy`

The model does what the code does, including where another reading would be natural:

- selecting a new track does not reset the position;
- seek and volume are not clamped;
- a favorite is added to the set only after the server confirms it, and with the id as
  the catalog gives it;
- hydration replaces the set and does not merge pending changes;
- the player has no separate loading or ended states.

## Model

| member | source | states |
|---|---|---|
| Player.PlayerSession.constructor | beat-main/client/src/Context/PlayerContext.jsx:6-12 | The session starts with no track, not playing, volume 0.5, not muted, and no audio element. |
| Player.PlayerSession.PlayTrack | beat-main/client/src/Context/PlayerContext.jsx:14-27 | The new state is `Step(SelectTrack(t))`. An attached element receives `Commands`. An element exists afterwards exactly when the handler makes one appear, and a new element loads the new track's audio. The element never holds a stale source. |
| Player.SelectStep | beat-main/client/src/Context/PlayerContext.jsx:14-23 | The same track by strict id behaves as `togglePlay`. Another track becomes current and playing, and nothing else changes. Afterwards a track is always current. |
| Player.SelectSameTrackIsToggle | beat-main/client/src/Context/PlayerContext.jsx:15-19 | Re-selecting the current track equals `togglePlay` in state and in commands, and keeps the track. |
| Player.SelectTwiceIsSelectThenToggle | beat-main/client/src/Context/PlayerContext.jsx:14-23 | Selecting a track twice is the same as selecting it and then toggling. |
| Player.PlayerSession.TogglePlay | beat-main/client/src/Context/PlayerContext.jsx:29-35 | The new state is `Step(TogglePlay)`. An attached element receives `pause()` when it was playing and `play()` otherwise. |
| Player.ToggleStep | beat-main/client/src/Context/PlayerContext.jsx:29-35 | `isPlaying` is negated and nothing else changes. |
| Player.PauseStep | beat-main/client/src/Context/PlayerContext.jsx:37-42 | The session is not playing afterwards, and nothing else changes. |
| Player.ResumeStep | beat-main/client/src/Context/PlayerContext.jsx:44-49 | The session is playing afterwards, and nothing else changes. |
| Player.PlayerSession.PauseTrack | beat-main/client/src/Context/PlayerContext.jsx:37-42 | The session stops playing. An attached element receives exactly `pause()`. |
| Player.PlayerSession.ResumeTrack | beat-main/client/src/Context/PlayerContext.jsx:44-49 | The session is playing whatever `play()` does. The device's nondeterministic rejection does not change the state. |
| Player.PlayerSession.HandleVolumeChange | beat-main/client/src/Context/PlayerContext.jsx:51-57 | The level is stored without clamping and forwarded to an attached element. `isMuted` is cleared only by a positive level. |
| Player.VolumeStep | beat-main/client/src/Context/PlayerContext.jsx:51-57 | `isMuted` afterwards holds if and only if it held and the level is not positive. The volume is the level. Nothing else changes. |
| Player.Step | beat-main/client/src/Context/PlayerContext.jsx:14-57 | No handler clears a current track. Only a selection changes the track, and then to the selected one. No handler mutes. |
| Player.TrackNeverCleared | beat-main/client/src/Context/PlayerContext.jsx:22 | Once a track is current, no sequence of handlers clears it. |
| Player.NeverMuted | beat-main/client/src/Context/PlayerContext.jsx:9 | A session that starts unmuted stays unmuted under every sequence of handlers. |
| Player.PlayingImpliesTrack | beat-main/client/src/Components/BottomPlayer.jsx:47 | `isPlaying` implies a current track, along any sequence in which the transport is used only while a track is current. |
| Player.UnguardedToggleBreaksInvariant | beat-main/client/src/Context/PlayerContext.jsx:29-35 | Without that guard, `togglePlay` from the initial session plays with no track. |
| Player.PlayerSession.SyncEffect | beat-main/client/src/Components/BottomPlayer.jsx:11-19 | The state is unchanged. An attached element receives `play()` when playing and `pause()` otherwise. |
| Player.SyncEffectFollowsIntent | beat-main/client/src/Components/BottomPlayer.jsx:11-19 | The effect sends nothing without a track. Otherwise it sends `play()` if and only if playing, and `pause()` if and only if not. |
| Player.NewTrackIsPlayedBySyncEffect | beat-main/client/src/Components/BottomPlayer.jsx:11-19 | After a new track is selected with the player mounted, the following effect sends `play()`. |
| Player.Commands | beat-main/client/src/Components/BottomPlayer.jsx:11-38 | No element means no commands. A load command comes only from a selection, and carries that track's url. |
| Player.PlayerSession.OnTimeUpdate | beat-main/client/src/Components/BottomPlayer.jsx:21-26 | With an element, the position is the element's and the duration is the reported one, or 0. Without an element, nothing changes. |
| Player.TimeUpdateStep | beat-main/client/src/Components/BottomPlayer.jsx:21-26 | With an element, `progress` is the reported time and `duration` is the reported duration or 0, and nothing else changes. Without an element, the state is unchanged. |
| Player.PlayerSession.OnEnded | beat-main/client/src/Components/BottomPlayer.jsx:28-31 | The session stops at position 0. |
| Player.EndedStep | beat-main/client/src/Components/BottomPlayer.jsx:28-31 | Not playing, progress 0, the track kept, and nothing else changed. |
| Player.PlayerSession.HandleSeek | beat-main/client/src/Components/BottomPlayer.jsx:33-38 | With an element, it receives `currentTime = v` and `progress` becomes `v`. Without one, nothing changes. |
| Player.SeekStep | beat-main/client/src/Components/BottomPlayer.jsx:33-38 | With an element the position becomes the value and nothing else changes. Without one, the state is unchanged. |
| Player.SeekStaysWithinSlider | beat-main/client/src/Components/BottomPlayer.jsx:93-96 | A seek from the slider, bounded by `duration`, never moves `progress` past `duration`. |
| Player.PlayerSession.Mount | beat-main/client/src/Components/BottomPlayer.jsx:47-58 | The bottom player appears with position and duration 0. With a track it creates an element loading that track's audio. |
| Player.MountStep | beat-main/client/src/Components/BottomPlayer.jsx:47-58 | The bottom player is shown afterwards. Appearing resets position and duration to 0 and keeps the context state; an already shown player is unchanged. |
| Player.UnmountStep | beat-main/client/src/App.jsx:84 | The bottom player is gone, its position and duration are discarded, and the context state is kept. |
| Player.PlayerSession.Unmount | beat-main/client/src/Components/BottomPlayer.jsx:47 | The bottom player and its element go, and the context state stays. |
| TimeFormat.FormatTime | beat-main/client/src/Components/BottomPlayer.jsx:40-45 | `0` prints `0:00`. Otherwise the result is digits, a colon, and two digits. |
| TimeFormat.PadSeconds | beat-main/client/src/Components/BottomPlayer.jsx:44 | The seconds field has exactly two digits and reads back as the seconds. |
| TimeFormat.FormatTimeFields | beat-main/client/src/Components/BottomPlayer.jsx:42-44 | The minutes field reads `t / 60` and the seconds field `t % 60 < 60`, and `60*min + sec == t`. |
| TimeFormat.ParseFormatTime | beat-main/client/src/Components/BottomPlayer.jsx:40-45 | Reading an `m:ss` string back gives the time. |
| TimeFormat.FormatTimeInjective | beat-main/client/src/Components/BottomPlayer.jsx:40-45 | Different times never print the same text. |
| JsValues.TrimEmptyIffBlank | beat-main/client/src/Pages/Music.jsx:41 | `s.trim()` is empty if and only if `s` is white space only. |
| JsValues.ParseNatToString | beat-main/client/src/Components/BottomPlayer.jsx:44 | Reading back the digits of `String(n)` gives `n`. |
| JsValues.IntToStringInjective | beat-main/client/src/Pages/Music.jsx:157 | `String(i)` tells different whole numbers apart. |
| Tracks.IsCurrentCard | beat-main/client/src/Pages/Music.jsx:157 | With a current track, a card is current exactly when the ids print the same. With none, only a card whose id is the string "undefined" is current. |
| Tracks.StringEqualityOfIds | beat-main/client/src/Pages/Favorites.jsx:45 | `String(a) === String(b)` holds exactly for strictly equal ids and for a number paired with the string that prints it. |
| Tracks.StrictEqualityIsFiner | beat-main/client/src/Context/PlayerContext.jsx:16 | `5` and `"5"` differ under `===` but agree under `String(...)`. |
| Music.MusicPage.constructor | beat-main/client/src/Pages/Music.jsx:10-15 | The page starts with an empty query, no tracks, not loading, sorted by `popularity_total`, no favorites and no add in flight. |
| Music.HydratedIds | beat-main/client/src/Pages/Music.jsx:28 | Every fetched track's id is in the set as a string, and the set holds nothing else. |
| Music.IsFavoriteIn | beat-main/client/src/Pages/Music.jsx:71 | A track tests as a favorite only if a member prints like its id. In a set of strings the test holds if and only if one does. |
| Music.MusicPage.HydrateFavorites | beat-main/client/src/Pages/Music.jsx:21-35 | Nothing is requested without a token. On success the set is `{String(t.id) \| t in data}`. On failure, or with no list, the set is unchanged. Nothing else changes. |
| Music.HydratedMembership | beat-main/client/src/Pages/Music.jsx:28 | After hydration a track is a favorite if and only if a fetched track prints the same id. The set holds strings only. |
| Music.MusicPage.SearchTracks | beat-main/client/src/Pages/Music.jsx:38-65 | A blank query warns, makes no request and leaves the tracks unchanged. A success shows the results or `[]`, and an empty result gives the info toast. A failure keeps the tracks and shows the error toast. Loading ends false. |
| Music.SearchAllowed | beat-main/client/src/Pages/Music.jsx:41 | A search is made if and only if the query has a character other than white space. |
| Music.MusicPage.AddToFavorites | beat-main/client/src/Pages/Music.jsx:68-88 | A favorite already present warns, with no request and nothing changed. Otherwise the id is marked while in flight. After success the id is inserted as it is, and the track then tests as a favorite if and only if its id is a string. The set is unchanged after failure, and the mark is cleared on both outcomes. |
| Music.MusicPage.HandleSortChange | beat-main/client/src/Pages/Music.jsx:90-95 | The sort is stored. The search is triggered again if and only if the query is not blank. |
| Music.MusicPage.EditQuery | beat-main/client/src/Pages/Music.jsx:116 | The query takes the typed value, and nothing else changes. |
| Music.Flags | beat-main/client/src/Pages/Music.jsx:157-160 | A card is current if and only if the ids print the same, and playing if and only if it is current and the session plays. It is a favorite if and only if its string id is in the set. It is being added if and only if its id is strictly equal to the mark. |
| Music.CardAndPlayerDisagree | beat-main/client/src/Context/PlayerContext.jsx:16 | Whenever the current id is a number, the card whose id is the string printing it is highlighted as current, yet `playTrack` does not toggle but makes it the new current track, playing. |
| Music.HeartDisabled | beat-main/client/src/Pages/Music.jsx:207 | The heart is disabled for a favorite and for the track in flight. An enabled heart belongs to a track that is neither, so its click passes the handler's guard. |
| Music.DurationLabel | beat-main/client/src/Pages/Music.jsx:227 | The card label (`floor(d/60)`, a colon, and the last two characters of `'0' + d % 60`) is the player's `formatTime(d)`, and reads back as `d`. |
| Music.InsertRaw | beat-main/client/src/Pages/Music.jsx:79 | The id goes in as it is, and only it is added. |
| Music.RawInsertMissesNumericId | beat-main/client/src/Pages/Music.jsx:79 | Adding a track with a numeric id leaves it not favorited by the page's own test, so its heart is enabled again once the mark clears, and the set no longer holds strings only. |
| Music.InsertNormalized | beat-main/client/src/Pages/Music.jsx:79 | The string id goes in, and only it is added. |
| Music.NormalizedInsertIsFavorite | beat-main/client/src/Pages/Music.jsx:71-79 | With the string id stored, the track becomes a favorite. Other tracks change only if they print the same id. The set stays strings only. Re-adding is a no-op. |
| Favorites.WithoutId | beat-main/client/src/Pages/Favorites.jsx:45 | The filtered list holds exactly the entries whose id does not print as the removed one, and is no longer than the list. |
| Favorites.WithoutIdConcat | beat-main/client/src/Pages/Favorites.jsx:45 | The filter works entry by entry, so the remaining entries keep their order. |
| Favorites.WithoutAbsentId | beat-main/client/src/Pages/Favorites.jsx:45 | Removing an id no entry prints leaves the list unchanged. |
| Favorites.WithoutIdIdempotent | beat-main/client/src/Pages/Favorites.jsx:45 | Removing the same id twice removes nothing more. |
| Favorites.RemovingShownTrack | beat-main/client/src/Pages/Favorites.jsx:127 | Removing a card's own id takes that card off the list and shortens it. |
| Favorites.FavoritesPage.constructor | beat-main/client/src/Pages/Favorites.jsx:9-10 | The page starts with an empty list, loading. |
| Favorites.FavoritesPage.FetchFavorites | beat-main/client/src/Pages/Favorites.jsx:20-37 | No request without a token. A success sets the data, or `[]` when it is absent. A failure keeps the list and shows the error toast. Loading ends false on every path. |
| Favorites.FavoritesPage.RemoveFavorite | beat-main/client/src/Pages/Favorites.jsx:40-56 | The filtered list is shown while the request is in flight and stands on success. The exact earlier list comes back on failure. |
| Favorites.ExactlyOneBody | beat-main/client/src/Pages/Favorites.jsx:69-152 | Exactly one of spinner, grid and empty state shows. The grid shows if and only if not loading with entries, and the empty state if and only if not loading with none. |
| Favorites.CardFlags | beat-main/client/src/Pages/Favorites.jsx:80-81 | A card is current if and only if the ids print the same, and playing if and only if it is current and the session plays. |
| App.ProtectedRoute | beat-main/client/src/App.jsx:15-20 | The page renders if and only if signed in. Otherwise it redirects to `/signin`. |
| App.PublicOnlyRoute | beat-main/client/src/App.jsx:23-28 | The page renders if and only if signed out. Otherwise it redirects to `/music`. |
| App.InitialIsAuth | beat-main/client/src/App.jsx:32 | Signed in at start if and only if a non-empty token is stored. |
| App.ShowPlayer | beat-main/client/src/App.jsx:36-37 | The player shows if and only if signed in and not on `/signin` or `/signup`. |
| App.RouteTable | beat-main/client/src/App.jsx:44-82 | Exactly the seven routed paths have a route. `/music` and `/favorites` are the protected ones, and `/signin` and `/signup` the public-only ones. |
| App.Resolve | beat-main/client/src/App.jsx:44-82 | A path renders nothing if and only if it is not in the route table. |
| App.ProtectedPagesNeedAuth | beat-main/client/src/App.jsx:66-81 | `/music` and `/favorites` render if and only if signed in, and otherwise redirect to `/signin`. |
| App.PublicOnlyPagesRedirectWhenSignedIn | beat-main/client/src/App.jsx:49-64 | `/signin` and `/signup` render if and only if signed out, and otherwise redirect to `/music`. |
| App.OpenPagesAlwaysRender | beat-main/client/src/App.jsx:45-47 | `/`, `/about` and `/contact` render the same page whatever the auth state. |
| App.NoRedirectLoops | beat-main/client/src/App.jsx:15-28 | Every redirect lands on a page that renders for the same auth state. |
| App.PlayerOnlyOverRenderedPages | beat-main/client/src/App.jsx:84 | On a routed path the player shows only over a rendered page. |
| ClientSession.Browser.constructor | beat-main/client/src/App.jsx:32 | At start-up `isAuth` is computed from the stored token. |
| Header.NavLinks | beat-main/client/src/Components/Header.jsx:30-43 | Signed in, the links are exactly `/`, `/music`, `/favorites`, `/about`. Signed out, they are exactly `/`, `/about`, `/contact`. |
| Header.AuthButtons | beat-main/client/src/Components/Header.jsx:48-95 | Sign in shows if and only if signed out. Logout shows if and only if signed in, and Sign up if and only if signed out. |
| Header.HeaderLinksRender | beat-main/client/src/Components/Header.jsx:30-95 | Every link and button target the header offers renders, without a redirect, in the state it was shown in. |
| Header.IsActive | beat-main/client/src/Components/Header.jsx:17 | A link is active if and only if the location matches its path character for character, so not with a trailing slash. |
| Header.AtMostOneActive | beat-main/client/src/Components/Header.jsx:17 | `isActive` is exact path equality, so at most one nav link is active. |
| Header.HandleLogout | beat-main/client/src/Components/Header.jsx:10-14 | Signed out, no token, on `/signin`. |
| Header.LogoutLandsOnSignIn | beat-main/client/src/Components/Header.jsx:13 | After logout the sign-in page renders rather than redirecting. |
| AxiosInstance.WithAuthorization | beat-main/client/src/api/axiosInstance.js:10-15 | `Authorization: Bearer <token>` is set if and only if a token is stored. Every other header is untouched. |
| AxiosInstance.BearerTokenRoundTrip | beat-main/client/src/api/axiosInstance.js:13 | The token reads back from the header. |
| AxiosInstance.AttachToken | beat-main/client/src/api/axiosInstance.js:9-16 | The config's own headers are updated in place and the same config is returned. |
| AxiosInstance.PassResponse | beat-main/client/src/api/axiosInstance.js:24 | A successful reply passes through unchanged. |
| AxiosInstance.IsUnauthorized | beat-main/client/src/api/axiosInstance.js:26 | A failure without a response is never a 401. One with a response is if and only if its status is 401. |
| AxiosInstance.RejectResponse | beat-main/client/src/api/axiosInstance.js:25-33 | A 401 removes the token and reloads on `/signin` signed out. Any other failure leaves storage, `isAuth` and the location as they were. The same error is rejected to the caller. |
| SignIn.ReportedError | beat-main/client/src/Pages/SignIn.jsx:31 | The server's error text is present if and only if the failure carries a non-empty one. |
| SignIn.LoginErrorText | beat-main/client/src/Pages/SignIn.jsx:30-35 | The server's error is shown when present, else "Invalid email or password". |
| SignIn.SignInForm.constructor | beat-main/client/src/Pages/SignIn.jsx:7-8 | The form starts with empty email and password. |
| SignIn.SignInForm.Login | beat-main/client/src/Pages/SignIn.jsx:11-37 | A jwt is stored, the user signed in, the fields cleared, and the page is `/music`. With no jwt, or on failure, the token, `isAuth`, location and fields are untouched, with the matching toast. |
| SignUp.SignUpForm.constructor | beat-main/client/src/Pages/SignUp.jsx:7-9 | The form starts with empty name, email and password. |
| SignUp.ReportedMessage | beat-main/client/src/Pages/SignUp.jsx:47 | The server's `message` is present if and only if the failure carries a non-empty one, and it is that text. |
| SignUp.SignUpErrorText | beat-main/client/src/Pages/SignUp.jsx:45-51 | The message is the server's `error`, else its `message`, else the default. |
| SignUp.ErrorTakesPrecedence | beat-main/client/src/Pages/SignUp.jsx:45-48 | A reply with both `error` and `message` shows the `error`. |
| SignUp.SignUpForm.Mount | beat-main/client/src/Pages/SignUp.jsx:13-16 | The token is removed and `isAuth` cleared. |
| SignUp.SignUpForm.Register | beat-main/client/src/Pages/SignUp.jsx:18-53 | The token and `isAuth` end cleared on every path. With a jwt, the fields are cleared and the page goes to `/`. Without one it goes to `/signin`. On failure the location stays and the error text follows the precedence. |
| AuthController.Register | beat-main/server/Controller/authController.js:17-47 | An existing email is refused with 400 and the table unchanged. Otherwise the hashed password is stored under the email with a fresh id, and the reply carries the user and `sign(id)`. Every throw answers 500 with its message: one before the save changes nothing, and one from signing leaves the user stored. |
| AuthController.Authenticate | beat-main/server/Controller/authController.js:49-75 | An unknown email answers 400 "User not found", and a failed compare 400 "Invalid credentials". A throw from the lookup, the compare or the signing answers 500 with its message. The reply is 200 if and only if the user exists, the compare succeeds and nothing throws, and then it carries `sign(id)`. Only a 200 carries a user. |
| AuthController.UserCollection.SignUp | beat-main/server/Controller/authController.js:17-47 | The new table and the reply are those of `Register`. |
| AuthController.UserCollection.SignIn | beat-main/server/Controller/authController.js:49-75 | The reply is `Authenticate`'s. The table is not modified. |
| AuthController.RegisterPreservesValid | beat-main/server/Controller/authController.js:20-34 | A sign-up keeps users keyed by email with distinct ids, and keeps every other user. |
| AuthController.SignUpThenSignIn | beat-main/server/Controller/authController.js:25-70 | A fresh sign-up followed by a sign-in with the same password succeeds with the same id and token. |
| AuthController.SecondSignUpRefused | beat-main/server/Controller/authController.js:20-23 | A second sign-up with the same email is refused and changes nothing. |
| TransactionModel.ParseStatus | beat-main/server/Model/transactionModel.js:21-25 | A status string is accepted exactly when it names `pending`, `completed` or `failed`. |
| TransactionModel.ParseStatusName | beat-main/server/Model/transactionModel.js:23 | Every status's name parses back to it. |
| TransactionModel.ValidationErrors | beat-main/server/Model/transactionModel.js:4-25 | `userId` and `amount` fail exactly when missing, `description` exactly when missing or empty, and `status` exactly when outside the enum. |
| TransactionModel.Build | beat-main/server/Model/transactionModel.js:3-30 | A draft is rejected exactly when some path fails. Otherwise the fields are kept, currency defaults to USD, status to completed, and date and timestamps to the clock. |
| TransactionModel.StatusAcceptedIffEnum | beat-main/server/Model/transactionModel.js:21-25 | With the required fields present, a record validates if and only if its status is in the enum. |
| TransactionController.Owned | beat-main/server/Controller/transactionController.js:7 | Exactly the records of the given owner, each as many times as it is stored. |
| TransactionController.InsertByDate | beat-main/server/Controller/transactionController.js:7 | Inserting into a newest-first list keeps it newest first. The result is a permutation of the list plus the record. |
| TransactionController.SortByDateDesc | beat-main/server/Controller/transactionController.js:7 | The result is newest first and a permutation of the input. |
| TransactionController.ListFor | beat-main/server/Controller/transactionController.js:4-13 | With a user and no fault the reply is 200, newest first, and a permutation of the caller's records. Otherwise it is 500. |
| TransactionController.ListedIffOwned | beat-main/server/Controller/transactionController.js:6-7 | A record is listed if and only if the caller owns it, and as many times as it is stored. |
| TransactionController.TransactionCollection.GetTransactions | beat-main/server/Controller/transactionController.js:4-13 | 500 without a user or when the query fails. Otherwise 200 with the caller's records, newest first, each as many times as it is stored, and none for a user without an id. |
| TransactionController.DraftFor | beat-main/server/Controller/transactionController.js:25-30 | The caller is the owner, and a falsy status becomes `completed`. |
| TransactionController.TransactionCollection.CreateTransaction | beat-main/server/Controller/transactionController.js:16-38 | No user or no id answers 401 and saves nothing. A failed build or save answers 500 and saves nothing. Otherwise the built record is appended and answered with 201. |
| TransactionController.CreatedIsListed | beat-main/server/Controller/transactionController.js:6-30 | A created record is listed for its owner and for nobody else. |
| TransactionController.CreatedRecordFields | beat-main/server/Controller/transactionController.js:25-30 | A created record is the caller's, in USD, dated now, with the given status or `completed`. |

## Left out

- Rendering: markup, class names, icons, hover styles and the skip buttons, which have no handlers.
- The pages Home, About, Contact and Footer: they are presentation only.
- `transactionRoutes.js` only wires routes. The `authenticate` middleware it names is not part of this model, so `req.user` is a parameter.
- `userModel.js` is not part of this model. Its `role` field is not in the sign-up and sign-in replies modelled here, and its own validation is taken as "the save may fail".
- Network I/O, the catalog provider and the query parameters of a search are left out. Every request's outcome is a parameter of its handler.
- Concurrency: each handler is one atomic step. Two overlapping removes sharing a snapshot are not modelled, nor the stale `favoriteIds` a click can see, nor replies arriving out of order.
- The delays of `setTimeout`, before the search on a sort change and before the sign-up redirect, are folded into the same step.
- Floating point: positions, durations and volume are whole seconds and reals. NaN, fractional seconds and `Math.floor` on fractions are not modelled beyond the `|| 0` fallback for an unknown duration.
- A volume assignment outside [0, 1] throws in a browser. The slider keeps it inside, and the exception is not modelled.
- Route matching is exact and case-sensitive. The router's case-insensitive and trailing-slash matching is not modelled.
- `JsValues.NatToString`: prints plain decimal digits for every natural number. From 10^21 on, JavaScript's `String(n)` switches to exponent notation, and the model does not follow it there.
- The client's base URL is not modelled, since no request is sent.
- The request interceptor's error handler passes the error through, and is not modelled separately.
- A reload after a 401 also resets the rest of the client state, for example the player. The model recomputes only `isAuth`.
- A reply body that is not an object makes `data.results` or `data.map` throw. Search models it as the failure branch. Hydration models an absent list as a failure that leaves the set unchanged.
- Server request bodies with missing fields in the auth handlers are not modelled: name, email and password are strings.
- `TransactionController.ListFor`: a user present without an `_id` is taken to own no record, since every stored record has an owner. The query driver's treatment of an undefined filter is not modelled.
- Mongoose's casting of amount and description from other JSON types is not modelled. Amounts are whole numbers.
- The server handlers' `console.error` calls in their catch blocks: the model keeps the 500 reply and drops the log line.
- `Player.PlayerSession.ResumeTrack`: the rejection of `play()` is logged to the console in the source, and the model drops it.

## Findings

| source | as written | input that shows it | evidently intended | confidence | as-written member | corrected member |
|---|---|---|---|---|---|---|
| beat-main/client/src/Pages/Music.jsx:79 | after a successful add, the raw `track.id` goes into a set that the page tests with `String(track.id)`; `Music.MusicPage.AddToFavorites` inserts this way | a catalog track with the numeric id 7: after the add, `favoriteIds.has("7")` is false, so the heart stays open and enabled and another click sends a second add | insert `String(track.id)`, as hydration does at line 28 | not executed; medium (only when the catalog returns numeric ids) | Music.RawInsertMissesNumericId | Music.NormalizedInsertIsFavorite |
