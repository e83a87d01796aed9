# RideSafe core in Dafny

This project models the client-side core of RideSafe, a ride-booking web app with a women-safety focus. The core covers:

- the global application state, its reducer and the store that pages dispatch into;
- the SOS button. A 3-second press raises an emergency mode: it dispatches `ACTIVATE_SOS`, asks once for a location fix, photographs silently every 10 seconds and appends an alert record to local storage;
- the booking page: a gender filter and a keyed sort over the driver list, and a flow that dispatches `SET_RIDE` with a four-digit ride code;
- the sign-in page: a four-digit one-time code (OTP), with a special reaction to the all-zero code;
- the settings page: the SOS voice code, the voice match that raises SOS, and the preference toggles;
- the profile editor and the home greeting;
- the shell that shows only the sign-in page until a rider is signed in.

Files:

- `app_context.dfy` (module `AppContext`): the records, the initial state, the reducer `Reduce`, its fold `Run`, and the `Store` class. The ghost `log` of the store records every dispatched action, and the store's state is always `Run(Initial, log)`.
- `otp.dfy` (module `Otp`): decimal rendering of naturals and the code `floor(1000 + random * 9000)` as a string. The random number is an input.
- `sos_button.dfy` (module `Sos`): the SOS button as a class. Each timer callback is one method: the activation timeout firing, one progress tick, one photo tick, the location callback. The class keeps the timers the source can no longer cancel.
- `booking.dfy` (module `Booking`): filtering and sorting as functions with correctness lemmas, and the page as a class.
- `auth.dfy`, `settings.dfy`, `profile.dfy`: each page as a class over the shared `Store`, plus the pure pieces they use.
- `home.dfy`, `app_shell.dfy`: the greeting, the display name, the tab switch and the sign-in gate.

Clocks, `Math.random()`, the geolocation result, whether the camera opened, image data, and whether local storage accepts a write (`setItem` throws once the storage quota is full) are parameters of the operations that use them. Local storage lists are fields of the class that writes them.

In these places the code behaves in ways that are easy to miss; the model follows the code:

- A second press while a first activation timeout is pending overwrites the only handle. The release then cancels only the newer timeout, so the older one still fires: SOS activates and, when storage accepts it, an alert is written although the button was let go. `Sos.SosButton.PressStart` records the lost timeout; `Sos.DoublePressActivatesAfterRelease` shows the outcome.
- The activation handler and the photo interval see the global state of the render in which the press began. The alert's user id and location, and every photo's location, are that press-time view. The location fix requested by the activation itself never reaches them.
- Progress intervals are not cleared on release. Each keeps ticking until it sees a full ring.
- Stopping SOS writes no record. It clears only the photo interval whose handle it holds.
- Nothing ever removes a stored photo, so the photo list can fill the storage quota. After that, each photo tick stores nothing, each activation still dispatches ACTIVATE_SOS but stores no alert, and saving an SOS code stores nothing and dispatches nothing.
- The location handler is asked for once, not continuously.

## Model

| member | source | states |
|---|---|---|
| AppContext.InitialIsConsistent | src/contexts/AppContext.tsx:52-59 | The initial state is signed out, with no user, ride or location, a light theme and SOS off; signed-in agrees with user-present |
| AppContext.SetUserStoresUser | src/contexts/AppContext.tsx:63-64 | SET_USER stores the user and marks the rider signed in; every other field is unchanged |
| AppContext.SetRideReplacesOnlyRide | src/contexts/AppContext.tsx:65-66 | SET_RIDE replaces the current ride and nothing else |
| AppContext.ToggleThemeIsInvolution | src/contexts/AppContext.tsx:67-68 | TOGGLE_THEME changes the theme and only the theme; toggling twice restores the state |
| AppContext.SosFlagsAreIdempotent | src/contexts/AppContext.tsx:69-72 | ACTIVATE_SOS and DEACTIVATE_SOS set or clear the SOS flag, touch nothing else, and repeating them changes nothing |
| AppContext.SetLocationLastWriteWins | src/contexts/AppContext.tsx:73-74 | SET_LOCATION stores the fix and nothing else; of two fixes in a row the later one stays |
| AppContext.LogoutKeepsOnlyTheme | src/contexts/AppContext.tsx:75-76 | LOGOUT returns to the initial state but keeps the theme; it is idempotent and from a light theme gives exactly the initial state |
| AppContext.UnrecognisedIsIdentity | src/contexts/AppContext.tsx:77-78 | An action of any other type leaves the state as it was |
| AppContext.ReducePreservesConsistency | src/contexts/AppContext.tsx:61-80 | Every action keeps "signed in exactly when a user is present" |
| AppContext.RunAppend | src/contexts/AppContext.tsx:88 | Feeding one more action to the store means applying the reducer once more to the current state |
| AppContext.RunPreservesConsistency | src/contexts/AppContext.tsx:87-95 | Any sequence of dispatches from a consistent state keeps signed-in and user-present in agreement |
| AppContext.Store.constructor | src/contexts/AppContext.tsx:88 | The store starts at the initial state with nothing dispatched |
| AppContext.Store.Dispatch | src/contexts/AppContext.tsx:88 | A dispatch records the action and moves the state to the reducer's result; the state stays the fold of all dispatched actions and stays consistent |
| Otp.ToDecimal | src/components/Auth/AuthPage.tsx:29 | The decimal rendering has at least one digit, only digits, and no leading zero for a positive number |
| Otp.DecimalRoundTrip | src/components/Auth/AuthPage.tsx:29 | Reading the rendered digits back gives the number |
| Otp.DecimalLength | src/components/Auth/AuthPage.tsx:29 | Numbers of one, two, three and four digits render with exactly that many characters |
| Otp.Draw | src/components/Auth/AuthPage.tsx:29 | `floor(1000 + random * 9000)` lies in 1000..9999 for every random number in [0, 1) |
| Otp.Generate | src/components/Auth/AuthPage.tsx:28-30 | A generated code has four digits and no leading zero, and its value is in 1000..9999 |
| Otp.GeneratedIsNeverZeros | src/components/Auth/AuthPage.tsx:28-30 | No generated code is "0000" |
| Otp.EveryCodeIsReachable | src/components/Auth/AuthPage.tsx:29 | Every value 1000..9999 is generated by some random number, so the range is covered exactly |
| Sos.ArmingProgress | src/components/SOS/SOSButton.tsx:105-113 | From a press, the ring gains one thirtieth per tick and is full after exactly 30 ticks, then stays full |
| Sos.RingFillsWithinDelay | src/components/SOS/SOSButton.tsx:98-113 | The 3000 ms delay holds exactly 30 ticks of 100 ms: the ring is short of full before the last of them and full at it |
| Sos.ProgressIsMonotone | src/components/SOS/SOSButton.tsx:105-113 | The ring never moves backwards and never passes full while one interval ticks |
| Sos.SosButton.constructor | src/components/SOS/SOSButton.tsx:7-12 | A mounted button is not pressing, shows an empty ring, has the camera off and no timers, over the stored alert and photo lists |
| Sos.SosButton.PressStart | src/components/SOS/SOSButton.tsx:94-114 | A press sets pressing, empties the ring and schedules an activation with the current view; a still-pending timeout loses its handle; one more progress interval runs |
| Sos.SosButton.Release | src/components/SOS/SOSButton.tsx:116-122 | A release cancels only the timeout in the handle, clears pressing and empties the ring |
| Sos.SosButton.ProgressTick | src/components/SOS/SOSButton.tsx:105-113 | A progress tick advances the ring by one step, clamped at full; an interval that sees a full ring stops |
| Sos.SosButton.StartSos | src/components/SOS/SOSButton.tsx:14-52 | Activation dispatches ACTIVATE_SOS, requests one fix if geolocation exists, starts the photo interval if the camera opened, and appends exactly one alert carrying the captured user id and location when storage accepts the write, none when it refuses |
| Sos.SosButton.HeldTimerFires | src/components/SOS/SOSButton.tsx:98-102 | The pending timeout fires: SOS becomes active, one alert with the press-time view is written when storage accepts it (none otherwise), pressing stops and the ring shows full |
| Sos.SosButton.LostTimerFires | src/components/SOS/SOSButton.tsx:98-102 | A timeout whose handle was overwritten fires just the same: SOS becomes active and, when storage accepts it, one alert with its own press-time view is written |
| Sos.SosButton.LocationFixArrives | src/components/SOS/SOSButton.tsx:19-27 | The geolocation callback dispatches SET_LOCATION with the fix |
| Sos.SosButton.CaptureTick | src/components/SOS/SOSButton.tsx:54-75 | A photo tick appends one photo stamped with the interval's captured location when SOS is active and storage accepts the write, and nothing otherwise |
| Sos.SosButton.StopSos | src/components/SOS/SOSButton.tsx:124-136 | Stop dispatches DEACTIVATE_SOS, turns the camera off and clears the photo interval in the handle; no alert is written |
| Sos.HoldToActivate | src/components/SOS/SOSButton.tsx:94-114 | Holding through 30 ticks fills the ring; then the timeout activates SOS with exactly one new alert carrying the press-time view when storage accepts it (none otherwise), and no photo |
| Sos.ShortHold | src/components/SOS/SOSButton.tsx:94-122 | A single press released before the timeout leaves no pending activation, no alert and no dispatch |
| Sos.DoublePressActivatesAfterRelease | src/components/SOS/SOSButton.tsx:98 | Press, press, release: the first timeout still fires: ACTIVATE_SOS is dispatched and, when storage accepts it, one alert with the first press's view is written although nobody is pressing |
| Booking.FilterDrivers | src/components/Booking/BookingPage.tsx:80 | Filtering never lengthens the list |
| Booking.FilterDriversCorrect | src/components/Booking/BookingPage.tsx:80 | The filter keeps exactly the drivers of the chosen gender, each as often as it occurs; "all" keeps the list unchanged |
| Booking.SortDriversCorrect | src/components/Booking/BookingPage.tsx:81-94 | The sort returns a permutation of its input, ordered by the chosen key |
| Booking.FilterAndSortCorrect | src/components/Booking/BookingPage.tsx:79-94 | The shown list holds exactly the drivers that pass the filter, as a permutation. It is ascending by distance, price or eta, or descending by safety score, as chosen |
| Booking.FemaleViewBySafety | src/components/Booking/BookingPage.tsx:79-94 | Of two female drivers among four, the female view sorted by safety lists the safer one first and no male driver |
| Booking.FemaleDriversBySafety | src/components/Booking/BookingPage.tsx:28-94 | On the page's own list, the female view by safety is Sarah Johnson, then Emma Rodriguez |
| Booking.BookingPage.constructor | src/components/Booking/BookingPage.tsx:20-26 | The page starts on the location step with empty places, no driver chosen, filter "all" and sort by safety |
| Booking.BookingPage.SetPickup | src/components/Booking/BookingPage.tsx:267 | Typing sets the pickup place |
| Booking.BookingPage.SetDestination | src/components/Booking/BookingPage.tsx:282 | Typing sets the destination |
| Booking.BookingPage.SetGenderFilter | src/components/Booking/BookingPage.tsx:327 | The filter select sets the gender filter |
| Booking.BookingPage.SetSortBy | src/components/Booking/BookingPage.tsx:348 | The sort select sets the sort key |
| Booking.BookingPage.SubmitLocation | src/components/Booking/BookingPage.tsx:96-101 | Find Drivers moves to the driver step exactly when both places are non-empty; otherwise nothing changes |
| Booking.BookingPage.SelectDriver | src/components/Booking/BookingPage.tsx:103-106 | Choosing a listed driver selects them and moves to confirmation; the driver is on the list and passes the current filter |
| Booking.BookingPage.BackToDrivers | src/components/Booking/BookingPage.tsx:223 | Back to Drivers returns to the driver step |
| Booking.BookingPage.BookRide | src/components/Booking/BookingPage.tsx:108-130 | With a driver chosen: dispatches SET_RIDE (clock id, the places, the driver, status booked, a fresh code), returns the code and resets the form; without one, nothing changes |
| Booking.BookedRideCode | src/components/Booking/BookingPage.tsx:110-117 | A booked ride's code has four digits valued 1000..9999, and its id reads back as the clock value |
| Auth.ChangeTouchesOnlyItsField | src/components/Auth/AuthPage.tsx:21-26 | An input change sets its own field and leaves every other field of the form as it was |
| Auth.VerifyAgainstIssued | src/components/Auth/AuthPage.tsx:45-61 | Against an issued code, the rider is signed in exactly when the entry matches; "0000" always reaches the imposter branch and is the only entry that does |
| Auth.NewUser | src/components/Auth/AuthPage.tsx:46-52 | The signed-in user carries the form's name, email, phone and gender, no SOS code, and an id that reads back as the clock value |
| Auth.AuthPage.constructor | src/components/Auth/AuthPage.tsx:7-19 | The page opens on the login tab's form step, with an empty form, female gender and the password hidden |
| Auth.AuthPage.InputChange | src/components/Auth/AuthPage.tsx:21-26 | An input change applies to the form |
| Auth.AuthPage.ChooseLogin | src/components/Auth/AuthPage.tsx:143-151 | The Login and Sign Up tabs set the mode |
| Auth.AuthPage.ToggleShowPassword | src/components/Auth/AuthPage.tsx:231 | The eye button flips password visibility |
| Auth.AuthPage.Submit | src/components/Auth/AuthPage.tsx:32-63 | Form step: sends a fresh issued code, moves to the code step and dispatches nothing. Code step: dispatches SET_USER exactly when the entry matches, signals the imposter exactly for "0000", otherwise rejects |
| Auth.AuthPage.GoogleSignIn | src/components/Auth/AuthPage.tsx:65-75 | Google sign-in dispatches SET_USER with the demo account and the rider is signed in |
| Auth.AuthPage.BackToForm | src/components/Auth/AuthPage.tsx:113 | Back returns to the form step and dispatches nothing |
| Settings.Utf16Length | src/components/Settings/SettingsPage.tsx:18 | A string's JavaScript length lies between its character count and twice it, and equals the character count when every character is in the basic plane |
| Settings.CodeAcceptedBounds | src/components/Settings/SettingsPage.tsx:18 | A code of three characters is always accepted and one of at most one never; a two-character code is accepted exactly when a character lies above the basic plane, so two emoji pass and "ab" does not |
| Settings.Lower | src/components/Settings/SettingsPage.tsx:44-45 | Lower-casing keeps the length, leaves no upper-case letter, turns each upper-case letter into the same lower-case letter and keeps every other character; a string without upper-case letters is unchanged |
| Settings.LowerIsIdempotent | src/components/Settings/SettingsPage.tsx:44-45 | Lower-casing twice is lower-casing once |
| Settings.IncludesIffOccurs | src/components/Settings/SettingsPage.tsx:47 | The substring scan succeeds exactly when the code occurs at some position of the transcript |
| Settings.VoiceTriggersMeaning | src/components/Settings/SettingsPage.tsx:43-51 | Voice activation fires exactly when a non-empty saved code occurs, ignoring case, in the latest transcript |
| Settings.VoiceTriggersIgnoresCase | src/components/Settings/SettingsPage.tsx:44-45 | Changing the letter case of the transcript or of the code never changes the outcome |
| Settings.VoiceTriggersOnLatest | src/components/Settings/SettingsPage.tsx:44 | Only the latest recognition result counts |
| Settings.SettingsPage.constructor | src/components/Settings/SettingsPage.tsx:7-11 | The page starts with an empty code input and both preferences on, over the stored code |
| Settings.SettingsPage.SetSosCode | src/components/Settings/SettingsPage.tsx:110 | Typing sets the code input |
| Settings.SettingsPage.SaveSosCode | src/components/Settings/SettingsPage.tsx:17-28 | A code whose JavaScript length (UTF-16 units) is at least 3 is stored when storage accepts the write and, for a signed-in rider, copied into the user by SET_USER; a shorter code or a refused write changes nothing and dispatches nothing |
| Settings.SettingsPage.VoiceResult | src/components/Settings/SettingsPage.tsx:43-51 | A recognition result dispatches ACTIVATE_SOS exactly when the stored code matches it |
| Settings.SettingsPage.ThemeToggle | src/components/Settings/SettingsPage.tsx:13-15 | The theme switch dispatches TOGGLE_THEME and the theme changes |
| Settings.SettingsPage.ToggleNotifications | src/components/Settings/SettingsPage.tsx:150 | The notifications switch flips its preference |
| Settings.SettingsPage.ToggleLocationSharing | src/components/Settings/SettingsPage.tsx:169 | The location-sharing switch flips its preference |
| Settings.ToggleTwice | src/components/Settings/SettingsPage.tsx:150-169 | Two clicks on either preference switch restore it |
| Profile.MergeKeepsIdentity | src/components/Profile/ProfilePage.tsx:14-20 | A save takes name, email and phone from the form and keeps id, gender and SOS code; saving the unchanged form is the identity |
| Profile.ProfilePage.constructor | src/components/Profile/ProfilePage.tsx:7-12 | The page opens out of edit mode with the form filled from the rider |
| Profile.ProfilePage.StartEditing | src/components/Profile/ProfilePage.tsx:167 | Edit Profile enters edit mode |
| Profile.ProfilePage.Cancel | src/components/Profile/ProfilePage.tsx:149 | Cancel leaves edit mode and keeps what was typed |
| Profile.ProfilePage.EditName | src/components/Profile/ProfilePage.tsx:91 | Typing a name changes only the form's name |
| Profile.ProfilePage.EditEmail | src/components/Profile/ProfilePage.tsx:102 | Typing an email changes only the form's email |
| Profile.ProfilePage.EditPhone | src/components/Profile/ProfilePage.tsx:113 | Typing a phone changes only the form's phone |
| Profile.ProfilePage.Save | src/components/Profile/ProfilePage.tsx:14-20 | With a rider: SET_USER with the merged record and edit mode ends; without one, nothing changes |
| Home.GreetingBands | src/components/Home/HomePage.tsx:15-20 | Morning is hours 0-11, afternoon 12-17 and evening 18-23, without overlap |
| Home.GreetingIsMonotone | src/components/Home/HomePage.tsx:16-19 | A later hour never gets an earlier greeting |
| Home.TextsAreDistinct | src/components/Home/HomePage.tsx:17-19 | The three greeting texts differ, so the text identifies the band |
| Home.DisplayName | src/components/Home/HomePage.tsx:62 | The greeted name is never empty: the rider's name when it is non-empty, otherwise "User" |
| AppShell.AuthenticationGate | src/App.tsx:21-47 | Signed out, only the sign-in page shows, whatever the tab; signed in, a tab page shows with the SOS button, never the sign-in page |
| AppShell.TabsReachTheirPages | src/App.tsx:25-38 | The four navigation tabs reach home, booking, settings and profile; any other tab value shows home |
| AppShell.FirstScreen | src/App.tsx:14-23 | On first load the tab is home and the sign-in page shows |

## Left out

- Time: timers are events (methods) that the environment calls. The constants 3000 ms and 100 ms appear only to relate the ring to the activation timeout; the 10 s photo period does not appear, so "25 s of active SOS gives two photos" is not stated.
- Sos.ArmingProgress, Sos.ProgressIsMonotone, Sos.RingFillsWithinDelay, Sos.SosButton.ProgressTick: the ring is counted in integer thirtieths instead of the float percentage `prev + 100/30`. In IEEE doubles thirty such steps sum to 99.99999999999997, below 100. So an interval that the timeout does not cut short (after every release) takes a 31st step to about 103.33 and clears itself only on the 32nd tick. "Full after exactly 30 ticks" and "never passes full" hold for the integer model only.
- Distances and ratings are reals; JavaScript float arithmetic is not modelled.
- `toLowerCase` is modelled as ASCII lower-casing; Unicode case mapping is left out.
- Sos.SosButton.StartSos: the `await` on the camera is treated as atomic, so no other event can interleave between the dispatch and the alert. Setting pressing off and the ring to full, which the source does at that await, happens after the alert in the model.
- Camera access, the canvas context and MediaStream tracks: whether the camera opened is an input, a canvas context is always available, and stopping the tracks is not modelled.
- `alert()`, the audio clip, `window.open` and the Google Maps link are user-interface effects without state and are left out.
- The speech-recognition lifecycle (`isListening`, `recognition.stop()`, the 10-second stop timeout, browser support) is left out. Only the result handler is modelled.
- The camera-permission test button on the settings page is left out (a browser prompt with no state change).
- HTML `required` attributes on the sign-in form are not modelled: the submit handler itself does not check them.
- Unmount cleanup of the SOS timers, React re-rendering, the provider plumbing and `useApp`'s missing-provider error are left out.
- Local storage is modelled as typed fields; its JSON encoding is left out.
- The storage quota's size and the thrown `QuotaExceededError` are not modelled. Whether a write succeeds is the `written` input, and a refused write has the effect of skipping the rest of its handler.
- The static dashboard figures, the profile's ride statistics and the Navbar's layout are presentation only.
- The theme's effect on the body's class name is presentation only.
- Sort stability is not stated as a property. The insertion sort that models `Array.prototype.sort` is stable, and the four drivers have distinct keys under every order.
- Driver profile image URLs are shortened to file names.
- LOGOUT has no dispatching caller in this core; only the reducer case is modelled.
