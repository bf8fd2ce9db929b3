# A verified model of the course front end's player, session and pages

This project models the behaviour of the course platform's React front end in Dafny:

- **the HLS video player** (`VideoPlayer.jsx`), the main part:
  - checking the master playlist with a bounded retry;
  - attaching an hls.js engine, or falling back to native playback;
  - the engine's ERROR, MANIFEST_PARSED and LEVEL_SWITCHED handlers;
  - autoplay with muted retries;
  - every control handler and the `<video>` element's events;
  - the `m:ss` clock text.
- **the authentication context** (`AuthContext.jsx`): the session fields (`user`, `isAuthenticated`, `loading`, `message`, the stored token and the `Authorization` header) and the six operations that change them.
- **the login page** (`Login.jsx`): the email pattern, the order of the form's checks, the redirect target and the form's `error`/`loading` updates.
- **the course catalogue** (`Courses.jsx`): the search filter and the progress caption, badge and button text.
- **the landing page** (`Home.jsx`): the FAQ accordion, the access buttons, the shown user name, the enroll badge and logout.
- **the route guard** (`ProtectedRoute.jsx`).
- **the video list** (`videoList.jsx`): the response shapes it accepts, upload prepending and render precedence.

The outside world enters as parameters:

- the outcome of every `fetch`/axios request;
- whether each `play()` call resolves;
- whether a fullscreen or picture-in-picture request is accepted;
- whether the browser supports hls.js or plays HLS natively;
- the events hls.js delivers.

What the component asks of the outside world goes into a log. The `calls` field of `Player.VideoPlayer` records `play()`, `pause()`, `loadSource`, `attachMedia`, `destroy`, `startLoad`, `recoverMediaError`, `currentLevel`, the fetches and sleeps of playlist verification, and timer requests. `Auth.AuthSession.navigations` and `LoginPage.LoginForm.navigations` record navigations.

Objects whose fields the source updates in place are classes with `modifies` clauses:

- the `<video>` element;
- the player's state records and `hlsRef`;
- the auth session;
- the login form;
- the video list.

Pure decisions are functions. Many have lemmas relating them to an independent reading:

- the email check against the regular expression read literally (`LoginPage.EmailPatternIff`);
- the clock, quality and HTTP-error texts parsed back (`Clock.FormatTimeRoundTrip`, `Hls.QualityNameReadsBack`, `VideoCatalogue.HttpErrorReadsBack`);
- the seek bar against the progress read-out (`Player.SeekProgressRoundTrip`);
- the course filter's order and idempotence (`CoursesPage.MatchingAppend`, `CoursesPage.MatchingIdempotent`);
- the page that consumes a navigation (`HomePage.AccessRedirectLandsHome`, `RouteGuard.GuardRedirectReturns`).

The others, such as `Hls.Classify`, `Auth.ErrorText`, `HomePage.EnrollTarget` and `LoginPage.OutcomeError`, are specified case by case in their own contracts.

Some behaviour of the code is easy to misread. The model follows the code in each case:

- The playlist check is a substring test (`text.includes('#EXTM3U')`), not a test that the body starts with the signature.
- With `retries = 2` there is exactly one wait, 500 ms, between the two requests. The second failure is rethrown at once.
- On the hls.js path, `attemptPlay` calls `play()` up to three times, muting the element before each retry. The native path calls it at most twice.
- `handleVolumeChange` sets `muted = (volume === 0)`, so any nonzero volume un-mutes the element.
- The 3-second hide timer hides the controls even while the settings or quality menu is open.
- In LEVEL_SWITCHED, `hls.levels[l]?.height + 'p' || 'auto'` never yields `'auto'`. Outside the level list the sum is the truthy text `"undefinedp"`.
- A fatal error of another class destroys the engine but leaves `hlsRef` pointing at it. A later `changeQuality` still writes `currentLevel` on it, and the cleanup destroys it again.
- The home page's course and video buttons send `{ from: '/courses' }` (a text). The login page reads `from.pathname`, so after logging in from those buttons the user lands on `/`. The route guard passes a location, so the login form's navigation goes back to the guarded path. Either way the session's `login` also schedules `navigate('/')` one second after success, and that navigation fires last, so the user ends on `/` (`HomePage.AccessRedirectLandsHome`, `LoginPage.SignedInEndsHome`, `RouteGuard.GuardRedirectReturns`).
- A rejected `fetch` whose error message is empty leaves the video list's `error` falsy, so the list (or "No videos found") is rendered instead of the error view.
- Unmounting the player destroys the engine. It cancels neither the controls-hide timer nor the flash timer.

## Model

| member | source | states |
|---|---|---|
| Clock.FormatTime | src/Components/VideoPlayer.jsx:235-240 | the clock text is always digits, a colon and exactly two digits |
| Clock.ClockFields | src/Components/VideoPlayer.jsx:237-238 | minutes and seconds of a non-negative time: seconds below 60 and minutes*60+seconds equals the whole seconds of the time |
| Clock.FormatTimeRoundTrip | src/Components/VideoPlayer.jsx:235-240 | reading the `m:ss` text back gives `Math.floor(time)`, and 0 for an unknown (NaN/undefined) or zero time |
| Manifest.ManifestUrl | src/Components/VideoPlayer.jsx:17 | the URL starts with the configured API base, or `http://localhost:3000` when none is set, and ends with the video id followed by `/master.m3u8` |
| Manifest.ManifestUrlInjective | src/Components/VideoPlayer.jsx:17 | with the API base fixed, two videos get the same playlist URL iff their ids are equal |
| Manifest.InitErrorMessage | src/Components/VideoPlayer.jsx:138-141 | the shown text is the thrown message, the not-found text or the CORS text, and never empty for a non-empty message |
| Manifest.InitErrorMessageIdempotent | src/Components/VideoPlayer.jsx:138-141 | mapping an already-mapped message changes nothing: the replacement texts map to themselves |
| Manifest.AttemptError | src/Components/VideoPlayer.jsx:33-35 | an attempt succeeds iff the status is in 200..299 and the body contains `#EXTM3U` anywhere |
| Manifest.VerdictFrom | src/Components/VideoPlayer.jsx:20-44 | verified iff some remaining attempt is accepted; otherwise the error of the last attempt is rethrown |
| Manifest.AttemptsFrom | src/Components/VideoPlayer.jsx:21-41 | at most `retries` requests; every request before the last failed, and stopping early means the last one succeeded |
| Manifest.VerifyManifest | src/Components/VideoPlayer.jsx:20-44 | the loop's verdict, request count and waits agree with VerdictFrom, AttemptsFrom and one 500*(i+1) ms wait per failed non-final attempt |
| Manifest.OnlyWaitIsBetweenAttempts | src/Components/VideoPlayer.jsx:40-41 | the only wait is a single 500 ms one, taken exactly when the first request fails |
| Manifest.NotFoundAttempt | src/Components/VideoPlayer.jsx:33 | a 404 response throws "HTTP 404" |
| Manifest.NotFoundAfterTwo404s | src/Components/VideoPlayer.jsx:20-46 | two 404 responses end verification after both requests with "HTTP 404", which is then shown as 'Video not found on server' |
| Manifest.NotFoundMessageFor404 | src/Components/VideoPlayer.jsx:139 | a message containing 404 is replaced by the not-found text |
| Manifest.InvalidManifestShownVerbatim | src/Components/VideoPlayer.jsx:35-41 | successful responses lacking the signature fail like any other error, with 'Invalid HLS manifest format' shown unchanged |
| Manifest.InvalidFormatKept | src/Components/VideoPlayer.jsx:138-141 | the invalid-format message mentions neither 404 nor CORS, so it is kept |
| Manifest.UnsupportedShownVerbatim | src/Components/VideoPlayer.jsx:134-141 | the unsupported-browser error is shown as thrown |
| Manifest.InitErrorPrecedence | src/Components/VideoPlayer.jsx:138-141 | 404 wins over CORS; CORS alone gives the CORS text; a message is rewritten only if it mentions one of them |
| Hls.QualityName | src/Components/VideoPlayer.jsx:85 | `${height}p` is non-empty and ends in 'p' |
| Hls.QualityNameReadsBack | src/Components/VideoPlayer.jsx:85 | the name is the decimal height plus 'p', reads back as the height, and two names agree iff the heights do |
| Hls.Qualities | src/Components/VideoPlayer.jsx:82-88 | one quality entry per level |
| Hls.QualityEntry | src/Components/VideoPlayer.jsx:82-88 | entry i has id i, level i's height, width and bitrate, and name height+'p' |
| Hls.LevelSwitchLabel | src/Components/VideoPlayer.jsx:113-116 | the label is the menu name of level l in range, otherwise "undefinedp"; it is never 'auto' |
| Hls.ChosenQuality | src/Components/VideoPlayer.jsx:166 | -1 gives 'auto', a valid index with a non-empty name gives that name, any other index gives 'auto', and every result is 'auto' or some entry's name |
| Hls.ChosenMatchesSwitched | src/Components/VideoPlayer.jsx:114-166 | picking entry i shows the same label as the later LEVEL_SWITCHED for i; out of range they disagree ('auto' against "undefinedp") |
| Hls.Classify | src/Components/VideoPlayer.jsx:63-79 | non-fatal errors are ignored; fatal network errors reconnect after 3000 ms; fatal media errors recover; any other fatal error tears down with 'Playback error: ' + details |
| Player.UiState.ToggleSettings | src/Components/VideoPlayer.jsx:315 | flips the settings menu, closes the quality menu, keeps the rest; the menus are never both open |
| Player.UiState.ToggleQuality | src/Components/VideoPlayer.jsx:329 | flips the quality menu, closes the settings menu, keeps the rest; the menus are never both open |
| Player.VerificationCalls | src/Components/VideoPlayer.jsx:20-44 | n attempts log 2n-1 calls: a fetch of the URL at every even position, and between fetches k and k+1 a sleep of Backoffs' k-th delay (500*(k+1) ms) |
| Player.AutoplayCallsShape | src/Components/VideoPlayer.jsx:98-110 | `attemptPlay` makes 1 to 3 `play()` calls, all after the first made muted, each earlier call refused, and it starts playback iff its last call resolves |
| Player.SeekTarget | src/Components/VideoPlayer.jsx:174 | a seek-bar value in 0..100 stands for a position inside the media |
| Player.ProgressOf | src/Components/VideoPlayer.jsx:251 | a position inside the media gives a progress in 0..100 |
| Player.SeekProgressRoundTrip | src/Components/VideoPlayer.jsx:171-175 | the seek bar and the progress read-out are inverse: seeking to v and reading the progress back gives v, and seeking to the progress of a position returns to that position |
| Player.Clamp | src/Components/VideoPlayer.jsx:174 | the element never holds a position before 0 or past a known duration, and keeps any position already inside |
| Player.MediaElement.constructor | src/Components/VideoPlayer.jsx:285 | a paused element at 0 s, full volume, unmuted, rate 1, no source |
| Player.MediaElement.SetCurrentTime | src/Components/VideoPlayer.jsx:174 | assigning the position clamps it and changes nothing else |
| Player.MediaElement.PlatformChange | src/Components/VideoPlayer.jsx:247-266 | the platform may move the element to any well-formed state (metadata, playback position, end, native volume or rate), keeping the source the component set; this is what the element listeners report |
| Player.MediaElement.Resume | src/Components/VideoPlayer.jsx:99-100 | a `play()` that resolves leaves the element playing; nothing else about it changes |
| Player.MediaElement.Mute | src/Components/VideoPlayer.jsx:103 | `video.muted = true` before a retry; nothing else about the element changes |
| Player.MediaElement.SetSource | src/Components/VideoPlayer.jsx:123 | the native branch sets the element's source to the playlist URL; nothing else changes |
| Player.VideoPlayer.constructor | src/Components/VideoPlayer.jsx:7-10 | the initial player state, controls shown, menus closed, no engine |
| Player.VideoPlayer.InitPlayer | src/Components/VideoPlayer.jsx:12-144 | no video id: nothing. Otherwise it verifies the playlist. On failure it shows the mapped message and sets isPlaying false. On success it either destroys the previous engine and then loads and attaches a new one, or sets the element's source, or fails with the unsupported message |
| Player.VideoPlayer.AttachEngine | src/Components/VideoPlayer.jsx:48-120 | the hls.js branch: the previous engine (if any) is destroyed, a new engine is created, and the log gains loadSource(url) then attachMedia on it; only the engine and the call log change |
| Player.VideoPlayer.ShowInitError | src/Components/VideoPlayer.jsx:136-143 | the catch block: the shown error is the mapped message (`InitErrorMessage`) and isPlaying is false; every other part of the state stays as it was |
| Player.VideoPlayer.OnHlsError | src/Components/VideoPlayer.jsx:63-79 | applies Classify's decision: the error text, `startLoad` after 3 s, `recoverMediaError`, or `destroy` with the handle kept |
| Player.VideoPlayer.OnManifestParsed | src/Components/VideoPlayer.jsx:81-111 | sets the quality list, 'auto', no error and the first level's duration; every other field is unchanged; then autoplay sets isPlaying, or the click-to-play error with isPlaying untouched |
| Player.VideoPlayer.AttemptPlay | src/Components/VideoPlayer.jsx:98-110 | the `play()` calls are AutoplayCalls; the element ends muted if it was muted already or a refused call was retried; isPlaying is set iff some call resolves |
| Player.VideoPlayer.OnLevelSwitched | src/Components/VideoPlayer.jsx:113-116 | only currentQuality changes, to LevelSwitchLabel |
| Player.VideoPlayer.OnNativeLoadedMetadata | src/Components/VideoPlayer.jsx:124-132 | publishes the element's duration and clears the error, then calls `play()` and, if refused, once more muted; two refusals show click-to-play |
| Player.VideoPlayer.TogglePlayPause | src/Components/VideoPlayer.jsx:146-161 | pauses a playing element. Plays a paused one and clears the error. A NotAllowedError leads to a muted retry whose refusal shows click-to-play. Any other refusal shows its message. isPlaying is never set here |
| Player.VideoPlayer.ChangeQuality | src/Components/VideoPlayer.jsx:163-169 | does nothing without an engine; otherwise forces the level, shows ChosenQuality's label and closes the quality menu |
| Player.VideoPlayer.Seek | src/Components/VideoPlayer.jsx:171-175 | does nothing while the duration is 0/NaN/unset; otherwise moves to v/100 of the duration |
| Player.VideoPlayer.Skip | src/Components/VideoPlayer.jsx:292-294 | moves the position 5 s back or ahead, clamped by the element |
| Player.VideoPlayer.ChangeVolume | src/Components/VideoPlayer.jsx:177-184 | volume v on the element and in the state; muted exactly when v is 0, so a nonzero volume un-mutes |
| Player.VideoPlayer.ToggleMute | src/Components/VideoPlayer.jsx:186-190 | flips only the element's muted flag |
| Player.VideoPlayer.ChangePlaybackSpeed | src/Components/VideoPlayer.jsx:192-197 | the element and the state get the chosen rate |
| Player.VideoPlayer.TogglePictureInPicture | src/Components/VideoPlayer.jsx:199-212 | an accepted request flips isPiP according to the current PiP element; a refused one only sets 'Picture-in-Picture not available' |
| Player.VideoPlayer.ToggleFullscreen | src/Components/VideoPlayer.jsx:214-227 | an accepted request flips isFullscreen according to the current fullscreen element; a refused one only sets 'Fullscreen not available' |
| Player.VideoPlayer.MouseMove | src/Components/VideoPlayer.jsx:229-233 | shows the controls, cancels the pending hide and schedules a new one after 3000 ms |
| Player.VideoPlayer.HideControlsTimerFired | src/Components/VideoPlayer.jsx:232 | hides the controls whatever menu is open |
| Player.VideoPlayer.MouseLeave | src/Components/VideoPlayer.jsx:283 | hides the controls |
| Player.VideoPlayer.HoverVolume | src/Components/VideoPlayer.jsx:306 | shows the volume slider while the pointer is on the volume button |
| Player.VideoPlayer.ToggleSettingsMenu | src/Components/VideoPlayer.jsx:315 | the UI record becomes ToggleSettings of the old one |
| Player.VideoPlayer.ToggleQualityMenu | src/Components/VideoPlayer.jsx:329 | the UI record becomes ToggleQuality of the old one |
| Player.VideoPlayer.FlashPlayPause | src/Components/VideoPlayer.jsx:285 | shows the centre icon and schedules its removal after 1000 ms |
| Player.VideoPlayer.FlashTimerFired | src/Components/VideoPlayer.jsx:285 | hides the centre icon |
| Player.VideoPlayer.OnTimeUpdate | src/Components/VideoPlayer.jsx:247-254 | copies position and duration and sets progress = currentTime/duration*100, which lies in 0..100, only when the duration is truthy |
| Player.VideoPlayer.OnPlayEvent | src/Components/VideoPlayer.jsx:263 | isPlaying becomes true |
| Player.VideoPlayer.OnPauseEvent | src/Components/VideoPlayer.jsx:264 | isPlaying becomes false |
| Player.VideoPlayer.OnVolumeChange | src/Components/VideoPlayer.jsx:265 | the state's volume and muted flag take the element's |
| Player.VideoPlayer.OnMediaError | src/Components/VideoPlayer.jsx:266 | 'Video error: ' + the element's message, or 'Unknown error' |
| Player.VideoPlayer.Unmount | src/Components/VideoPlayer.jsx:270-276 | destroys the engine if there is one and clears the handle |
| Auth.ErrorText | src/Context/AuthContext.jsx:84 | the server's error text when non-empty, else the fallback; never empty with a non-empty fallback |
| Auth.BearerHeader | src/Context/AuthContext.jsx:22 | the header is "Bearer " followed by exactly the token |
| Auth.AuthSession.constructor | src/Context/AuthContext.jsx:12-23 | no user, loading, no message, not authenticated; the header is set iff the stored token is truthy |
| Auth.AuthSession.CheckAuthStatus | src/Context/AuthContext.jsx:27-43 | without a token nothing but loading changes. With one, success sets the user and authenticates. Failure forgets the token and the header and de-authenticates. loading is false on every path |
| Auth.AuthSession.SignIn | src/Context/AuthContext.jsx:50-57 | stores the token, sets the matching header, the user, the welcome message and authentication, and navigates home after 1000 ms |
| Auth.AuthSession.Register | src/Context/AuthContext.jsx:45-66 | success behaves like login with the registration texts. Failure de-authenticates, clears the message and leaves token, header and user alone. The error falls back to 'Registration failed. Please try again.' |
| Auth.AuthSession.Login | src/Context/AuthContext.jsx:68-88 | success stores the response token and user, authenticates, says 'Login successful! Welcome back!' and resolves to success. Failure de-authenticates, empties the message, keeps token and user, and returns the server error or 'Login failed' |
| Auth.AuthSession.Logout | src/Context/AuthContext.jsx:90-102 | token, header and user are cleared and the session de-authenticated whether or not the server answers; then the login page |
| Auth.AuthSession.UpdateDetails | src/Context/AuthContext.jsx:104-112 | success replaces the user; failure keeps it and reports the server error or 'Update failed' |
| Auth.AuthSession.SetMessage | src/Context/AuthContext.jsx:14 | only the message changes |
| Auth.UpdatePassword | src/Context/AuthContext.jsx:114-121 | changes nothing; reports success, or the server error or 'Password update failed' |
| LoginPage.EmailPatternIff | src/Pages/Login.jsx:45-46 | the step-by-step check accepts exactly what `^[^\s@]+@[^\s@]+\.[^\s@]+$` matches: no whitespace, one '@' after a non-empty local part, and a '.' inside the domain |
| LoginPage.ValidEmailSplits | src/Pages/Login.jsx:45-46 | an accepted email splits into the pattern's three parts |
| LoginPage.SplitIsValidEmail | src/Pages/Login.jsx:45-46 | a text with the pattern's three parts is accepted |
| LoginPage.IsValidEmail | src/Pages/Login.jsx:45-46 | an accepted email has no whitespace and exactly one '@', with text before it and at least three characters after it |
| LoginPage.ValidationError | src/Pages/Login.jsx:38-50 | no error iff both fields are filled and the email matches the pattern; an empty field always gives 'Please fill in all fields'; the invalid-email text only for filled fields |
| LoginPage.EmptyFieldChecksFirst | src/Pages/Login.jsx:38-42 | an empty field is never reported as an invalid email |
| LoginPage.EmailAccepted | src/Pages/Login.jsx:45-46 | "ana@site.io" passes |
| LoginPage.EmailRefused | src/Pages/Login.jsx:45-46 | a domain without a dot and a second '@' are refused |
| LoginPage.RedirectTarget | src/Pages/Login.jsx:16 | the location's pathname when a location with a non-empty path was passed, '/' otherwise |
| LoginPage.OutcomeError | src/Pages/Login.jsx:55-60 | no error iff login succeeded; otherwise the result's error, or 'Login failed' when it is empty |
| LoginPage.LoginForm.constructor | src/Pages/Login.jsx:7-16 | empty fields, no error, not loading, `from` taken from the location state |
| LoginPage.LoginForm.HandleChange | src/Pages/Login.jsx:25-30 | only the edited field changes |
| LoginPage.LoginForm.HandleSubmit | src/Pages/Login.jsx:32-67 | a validation error is shown and the session is untouched. Otherwise the session's login runs once. On success the error is cleared, the form navigates to `from` with replace, and the session is signed in with its 1000 ms navigation to '/' scheduled. On failure the server's error or 'Login failed' is shown and nothing navigates. loading ends false on every path |
| LoginPage.SignedInEndsHome | src/Context/AuthContext.jsx:79 | of the form's immediate navigation to `from` and the session's welcome navigation a second later, the latter fires last: the user ends on '/' |
| Auth.LastToFire | src/Context/AuthContext.jsx:79 | the navigation that takes effect last has the longest delay, and no later-requested one has as long a delay |
| LoginPage.LoginForm.Unmount | src/Pages/Login.jsx:19-23 | the session's message is cleared and nothing else changes |
| CoursesPage.MatchesQuery | src/Pages/Courses.jsx:89-92 | the empty query matches every course, and a query found as typed in the title, category or instructor always matches |
| JsText.ContainsLower | src/Pages/Courses.jsx:89-92 | lower-casing both texts keeps every occurrence, and the empty text occurs everywhere |
| CoursesPage.Matching | src/Pages/Courses.jsx:89-93 | a course is kept iff it is listed and the lowercased query occurs in its lowercased title, category or instructor |
| CoursesPage.FilterCourses | src/Pages/Courses.jsx:85-96 | a query that trims to nothing shows every course in order; any other query keeps exactly the matching courses, using the untrimmed query |
| JsText.TrimBlankIff | src/Pages/Courses.jsx:86 | a text trims to "" iff all its characters are whitespace |
| CoursesPage.MatchingAppend | src/Pages/Courses.jsx:89-93 | the filter keeps catalogue order: filtering a concatenation is concatenating the filtered parts |
| CoursesPage.MatchingIdempotent | src/Pages/Courses.jsx:89-93 | filtering again changes nothing, and the result has one entry per matching course |
| CoursesPage.ProgressCaption | src/Pages/Courses.jsx:108-114 | 0: 'Not Started'; other values below 25: 'Just Started'; 25-49: 'In Progress'; 50-74: 'Almost There'; 75 and over (100 included): 'Nearly Complete' |
| CoursesPage.ProgressCaptionMonotone | src/Pages/Courses.jsx:108-114 | more progress never shows an earlier stage, and 100 reads 'Nearly Complete' |
| CoursesPage.StatusBadge | src/Pages/Courses.jsx:264 | not-started iff 0, completed iff 100, in-progress otherwise |
| CoursesPage.ButtonLabel | src/Pages/Courses.jsx:285 | 'Start Learning' iff 0, 'Review' iff 100, 'Continue Learning' otherwise |
| CoursesPage.BadgeButtonCaptionAgree | src/Pages/Courses.jsx:264-285 | badge, button and caption agree on unstarted courses; badge and button agree everywhere |
| CoursesPage.ClearSearchRestores | src/Pages/Courses.jsx:298-312 | the no-results panel means no course matches; Clear Search's "" shows the whole catalogue, so the panel stays only for an empty catalogue |
| HomePage.ToggleAccordion | src/Pages/Home.jsx:22-24 | after a click, entry i shows its answer iff it did not before, and no other entry shows one |
| HomePage.AccordionAtMostOne | src/Pages/Home.jsx:356 | at most one answer is shown after a click, and a second click on the same entry restores a closed accordion |
| HomePage.AccessTarget | src/Pages/Home.jsx:35-49 | signed in: the page itself; otherwise the login page carrying the page as a text `from` |
| HomePage.CourseAccess | src/Pages/Home.jsx:35-41 | signed in: '/courses'; otherwise the login page, whose form then leads to '/' |
| HomePage.VideoAccess | src/Pages/Home.jsx:43-49 | signed in: '/videos'; otherwise the login page, whose form then leads to '/' |
| HomePage.AccessRedirectLandsHome | src/Pages/Home.jsx:37 | the login form loses a text `from` and leads to '/', while it reads a location `from`. In both cases the session's welcome navigation to '/' fires last |
| HomePage.DisplayName | src/Pages/Home.jsx:178 | the username when non-empty, else the email's text before its first '@' |
| HomePage.EmailLocalPart | src/Pages/Home.jsx:178 | `split('@')[0]`: no '@' in it, and it is the whole email or the prefix ending right before the first '@' |
| HomePage.DisplayNameShape | src/Pages/Home.jsx:178 | a name taken from the email has no '@' and is non-empty when the email does not start with '@' |
| HomePage.EnrollTarget | src/Pages/Home.jsx:212 | navigates to the login page iff nobody is signed in, and that page's form then leads to '/' |
| HomePage.HandleLogout | src/Pages/Home.jsx:26-33 | the session logs out (cleared, login page), then the page navigates to '/' |
| RouteGuard.Guard | src/Pages/ProtectedRoute.jsx:8-16 | spinner iff loading. Not loading and signed out: redirect to /login with replace and the current location as `from`. Otherwise the children unchanged. Exactly one case holds |
| RouteGuard.GuardRedirectReturns | src/Pages/ProtectedRoute.jsx:12-14 | after the guard's redirect, the login form's own navigation leads back to the guarded path |
| VideoCatalogue.HttpError | src/videoList.jsx:14 | the message starts with 'HTTP error! Status: ' |
| VideoCatalogue.HttpErrorReadsBack | src/videoList.jsx:14 | the status reads back from the message, and distinct statuses give distinct messages |
| VideoCatalogue.LoadedVideos | src/videoList.jsx:12-25 | a list iff the status is ok and the body is an array or has a `videos` array. Otherwise the HTTP error, 'Invalid API response format', the null-body TypeError or the thrown message |
| VideoCatalogue.View | src/videoList.jsx:59-95 | loading first, then a truthy error, then 'No videos found', then the list |
| VideoCatalogue.VideoListView.constructor | src/videoList.jsx:5-7 | empty list, loading, no error |
| VideoCatalogue.VideoListView.FetchVideos | src/videoList.jsx:10-32 | stores LoadedVideos' list or its error, the list staying as it was on failure; loading is false afterwards |
| VideoCatalogue.VideoListView.HandleUpload | src/videoList.jsx:37-57 | an accepted upload is prepended before the old list; a failure sets 'Upload failed! Status: n' or the thrown message and keeps the list |
| VideoCatalogue.FailedLoadShowsError | src/videoList.jsx:59-70 | an error the component raises itself is non-empty, so the error screen wins over any list; an empty error renders like none |

## Left out

- hls.js itself: buffering, level selection, the worker and the configuration object (`src/Components/VideoPlayer.jsx:51-61`) are a foreign library. An engine is a handle with its levels, forced level and destroyed flag. Its events are method calls.
- The HTTP requests' options (method, CORS mode, credentials, headers), `axios.defaults.baseURL`, `localStorage` and `response.json()` parsing are I/O. Responses are parameters. The token and header are session fields.
- Platform APIs (`canPlayType`, `Hls.isSupported`, `requestFullscreen`, `requestPictureInPicture`, `document.fullscreenElement`, `document.pictureInPictureElement`) are booleans or accept/refuse parameters. The PiP button being disabled when the platform lacks the capability is rendering.
- Timers are not run. A scheduled callback is a log entry with its delay, and firing it is a separate method (`HideControlsTimerFired`, `FlashTimerFired`; a `StartLoadAfter` entry stands for the engine's later `startLoad`).
- Player.VideoPlayer.HideControlsTimerFired, FlashTimerFired: can be called when no timer is pending, because the `calls` log does not gate them. A cancelled hide timer is not prevented from firing.
- Player.MediaElement: the platform's own changes are one step, `PlatformChange`, to any well-formed state. Their order relative to the element's events is not constrained: an `OnTimeUpdate` need not follow a position change, and playback does not advance by itself.
- The `catch` of `handleSubmit` (`src/Pages/Login.jsx:61-63`) is not modelled, because the session's `login` catches every error itself (`src/Context/AuthContext.jsx:82-87`) and never rejects.
- Asynchrony and React batching are not modelled. Each callback is one sequential step on the state records. A late manifest response after unmount is not modelled.
- Floating point is not modelled. Times, volume, rate and progress are reals. NaN and `undefined` durations are `Unknown`. An infinite duration (a live stream) is not modelled. `parseFloat` of the input's text is not modelled: handlers receive the number.
- The missing-element guards (`if (!video) return`) are not modelled, because the element exists for the player's whole life. Attaching and detaching the element listeners (`src/Components/VideoPlayer.jsx:269-275`) is not modelled. Neither is a second `loadedmetadata` listener when the native path is initialised twice.
- Player.VideoPlayer.ChangeVolume: requires a volume in 0..1, the range of the slider (`src/Components/VideoPlayer.jsx:310`). The element would throw outside it.
- Player.VideoPlayer.OnHlsError, OnManifestParsed, OnLevelSwitched: require a live engine. A destroyed engine delivers no events.
- Player.VideoPlayer.OnManifestParsed: requires a non-empty level list, because `data.levels[0]` is read unguarded.
- CoursesPage.MatchesQuery: lower-cases ASCII letters only. JavaScript's full Unicode case mapping is not modelled.
- CoursesPage.ProgressCaption, StatusBadge, ButtonLabel: progress is an integer, as in the catalogue data. Fractional percentages are not modelled.
- VideoCatalogue.LoadedVideos: a body that is not JSON, and a rejected `fetch`, both arrive as the thrown message. The null-body message uses V8's wording.
- The pages' static content (course cards, FAQs, testimonials, theme toggle, active tab, the hard-coded catalogue), CSS classes, JSX markup and console logging are not modelled.
- `useAuth` outside its provider (`src/Context/AuthContext.jsx:143-149`) is not modelled.
- The video list's `onVideoSelect` callback, its Retry button (a page reload) and the building of the upload's `FormData` are not modelled.
- `src/Pages/Videos.jsx`, `src/Pages/Dashboard.jsx` and `src/App.jsx` are not part of this model.
