# Face-recognition attendance: a verified model of its rules

This project models the decision logic of a React face-recognition visitor
attendance application and proves properties of it in Dafny. The application
has several parts:

- a CCTV page that captures every new face it sees;
- a detection utility that labels faces from descriptor maps and reports the
  unknown ones;
- an attendance screen that identifies the visitor in front of the camera and
  checks them in or out;
- registration and login forms;
- a visitor dashboard;
- a daily monitoring table.

The model covers what the application computes: thresholds, bounded histories,
label lookup, prefix stripping, error ranking, validation, payload renaming,
filtering, geometry of boxes and display rules. What it receives from outside is given to the model
as inputs: face detections, the screenshot, the clock and the replies of the
HTTP services.

Face-descriptor distance (face-api's `euclideanDistance`) is a parameter
`dist: (Descriptor, Descriptor) -> real`. Every property therefore holds for
every distance function. Box geometry is computed on exact reals (see
"## Left out").

Modules, one per source file, plus two shared ones:

| module | file | models |
|---|---|---|
| `Common` | common.dfy | `Option`/`Result`; the visitor record; string truthiness and `\|\|` defaults; `Array.filter`; `includes`; ASCII `toLowerCase`; the bounded `push`/`shift` history |
| `DataUrl` | data_url.dfy | the `^data:image\/[a-z]+;base64,` strip and the literal JPEG-header strip |
| `FaceDetection` | face_detection.dfy | `src/utils/FaceDetection.js` |
| `Cctv` | cctv.dfy | `src/pages/CCTV.jsx` |
| `FaceRecognitionHook` | use_face_recognition.dfy | `src/hooks/useFaceRecognition.js` |
| `FaceRecognition` | face_recognition.dfy | `src/components/FaceRecognition/FaceRecognition.jsx` |
| `DisplayMessage` | display_message.dfy | `src/components/FaceRecognition/DisplayMessage.js` |
| `Register` | register.dfy | `src/components/Auth/Register.jsx` |
| `Login` | login.dfy | `src/components/Auth/Login.jsx` |
| `Home` | home.dfy | `src/pages/Home.jsx` |
| `VisitorMonitoring` | visitor_monitoring.dfy | `src/pages/VisitorMonitoringPage.jsx` |

Component state that the source updates in place (React state and refs, and the
module-level label `Map`) becomes a class whose fields are that state. Each
handler becomes a method whose `ensures` gives the complete new state.

An awaited call is an input to its handler. The reply is `Answered` with a value
(`None` for a falsy one) or `Failed` with the thrown error's message. The
handler is modelled as one step from the state before the call to the state
after it. Pure expressions become functions, and the properties relating them
are lemmas.

Two observations about the source are proved rather than modelled as dead
branches:
- `useFaceRecognition` never reaches its `response && response.error` branch.
  `FaceRecognitionHook.Settle` returns every truthy reply unchanged, and
  `FaceRecognitionHook.ErrorFieldNeverRaised` shows this holds even when the
  reply carries an `error` field.
- `handleTakePicture` can never show its "Face not recognized" warning. The hook
  either resolves with a truthy reply or throws, and
  `FaceRecognition.Screen.TakePicture` ensures that alert never appears.

## Model

| member | source | states |
|---|---|---|
| `Common.OrElse` | src/pages/VisitorMonitoringPage.jsx:92-94 | `s \|\| fallback` on a possibly missing string: the value when it is truthy (present and non-empty), the fallback otherwise |
| `Common.PushBounded` | src/pages/CCTV.jsx:68-69 | push then shift-if-over-capacity: the new descriptor is last; below capacity the history is extended, at capacity the oldest entry is dropped; a history within capacity stays within it |
| `Common.Filter` | src/pages/Home.jsx:84 | `Array.filter`: an order-preserving subsequence in which every element passing the test occurs exactly as often as in the input and no other element occurs |
| `Common.FilterAppend` | src/pages/Home.jsx:84 | filtering a concatenation is the concatenation of the filtered parts, so relative order is the input order |
| `Common.FilterKeepsAll` | src/pages/Home.jsx:84 | when every element passes, filtering returns the input unchanged |
| `Common.ContainsIff` | src/pages/Home.jsx:91 | the recursive `Contains` (`includes`) holds exactly when the needle occurs at some position of the string |
| `Common.Lower` | src/pages/Home.jsx:86-87 | `toLowerCase` on ASCII letters: same length, each character lower-cased in place |
| `Common.Utf16Length` | src/components/Auth/Login.jsx:35 | `s.length` counts UTF-16 code units: at least one and at most two per character |
| `Common.Utf16LengthBmp` | src/components/Auth/Login.jsx:35 | without characters beyond U+FFFF the JavaScript length is the number of characters |
| `DataUrl.StripDataUrlHeader` | src/hooks/useFaceRecognition.js:13 | without a header the string is unchanged; with one, the result is what follows the unique header prefix matched by `data:image/[a-z]+;base64,` |
| `DataUrl.StripRemovesOneHeader` | src/hooks/useFaceRecognition.js:51 | exactly one header is removed and whatever follows it, even a second header, is returned untouched |
| `DataUrl.Base64Untouched` | src/components/FaceRecognition/FaceRecognition.jsx:113-114 | a string with no colon (any base64 text, such as an image already stripped by the screen) is never changed by the strip |
| `DataUrl.StripTwice` | src/components/FaceRecognition/FaceRecognition.jsx:113-114 | stripping an already stripped screenshot again (the screen strips, then the hook strips) only acts on the payload |
| `DataUrl.StripLiteral` | src/utils/FaceDetection.js:208 | a leading literal header is removed and the rest kept (header + result = input); otherwise the input is unchanged |
| `DataUrl.JpegStripAgrees` | src/utils/FaceDetection.js:208 | the JPEG-only strip removes exactly what the general data-URL strip removes on JPEG images and nothing otherwise |
| `FaceDetection.ScanAppend` | src/utils/FaceDetection.js:49-67 | scanning the persistent store and then the session map is one scan over their concatenation |
| `FaceDetection.ScanSelects` | src/utils/FaceDetection.js:51-53 | a scan either keeps its starting candidate, when no entry improves on it, or ends on the first of the nearest improving entries |
| `FaceDetection.BestMatchIsFirstNearest` | src/utils/FaceDetection.js:45-70 | the label `MatchLabel` computes (one `Scan` over the persistent store, then one over the session map) is "Detecting..." exactly when no persistent or session entry is under 0.6; otherwise it is the label of the first nearest entry under 0.6, ties going to the earlier entry and persistent entries counting as earlier |
| `FaceDetection.PromoteGrows` | src/utils/FaceDetection.js:62-65 | `Promote` (and so `PromotedStore`) only grows the persistent store: old entries keep position and label, keys stay distinct, and each added entry is a session entry whose key was absent |
| `FaceDetection.LabelStore.constructor` | src/utils/FaceDetection.js:8 | the label store starts empty |
| `FaceDetection.LabelStore.FindBestMatch` | src/utils/FaceDetection.js:45-71 | the loops return the specified label and leave the store as the specified promoted store, with distinct keys |
| `FaceDetection.NoveltyRule` | src/utils/FaceDetection.js:141-151 | one step `Track` of the frame fold `TrackFrame`: a detection is reported and pushed exactly when no history descriptor is within 0.5 (`NearAny`) and its label is "Detecting..."; otherwise nothing changes |
| `FaceDetection.HistoryStaysBounded` | src/utils/FaceDetection.js:147-150 | a history of at most 10 descriptors stays at most 10 after any frame |
| `FaceDetection.ReportedInFrameOrder` | src/utils/FaceDetection.js:103-152 | reports extend the earlier ones and are a subsequence of the frame's detections in detector order |
| `FaceDetection.SameFrameSuppression` | src/utils/FaceDetection.js:141-149 | a detection reported earlier in a frame suppresses a later one within 0.5, because history is updated inside the loop |
| `FaceDetection.DetectFacesInVideo` | src/utils/FaceDetection.js:73-156 | a missing or zero-sized video changes nothing and reports nothing; otherwise reports, history and store are those of the specified frame fold |
| `FaceDetection.PaddedRegion` | src/utils/FaceDetection.js:158-166 | the crop origin moves back by a fifth of the shorter side, or to zero when that would cross it; both sides grow by 0.4 of the shorter side, and a non-negative face box lies inside the crop |
| `FaceDetection.ProcessSnapshotData` | src/utils/FaceDetection.js:200-215 | null exactly when the snapshot or its `src` is missing; otherwise one leading JPEG header is removed and timestamp, id and coordinates are copied |
| `Cctv.CaptureRule` | src/pages/CCTV.jsx:63-69 | one step `Observe` of the fold `ObserveAll`: a face is captured exactly when no remembered descriptor is within 0.6; then its image and time are appended and its descriptor becomes the newest remembered one, with the oldest dropped at 20; otherwise nothing changes |
| `Cctv.HistoryStaysBounded` | src/pages/CCTV.jsx:68-69 | the remembered-descriptor history never exceeds 20 |
| `Cctv.CapturesAppend` | src/pages/CCTV.jsx:53-71 | captures extend the earlier ones, at most one per face of the frame |
| `Cctv.NearTwinsCapturedOnce` | src/pages/CCTV.jsx:53-71 | two faces of one frame within 0.6 of each other give at most one capture |
| `Cctv.Gallery` | src/pages/CCTV.jsx:145 | `slice(-20)`: min(20, n) snapshots, the last ones, in insertion order |
| `Cctv.GalleryAfterAppend` | src/pages/CCTV.jsx:145 | a new snapshot appears last; with 20 or more, the oldest shown one leaves the view |
| `Cctv.Monitor.constructor` | src/pages/CCTV.jsx:9-13 | no models, empty history, no snapshots |
| `Cctv.Monitor.FinishLoading` | src/pages/CCTV.jsx:16-28 | the models flag is set only on successful loading |
| `Cctv.Monitor.DetectFaces` | src/pages/CCTV.jsx:31-73 | without a webcam and models, or on a zero-sized frame, nothing changes; otherwise history and snapshots follow the specified capture fold, snapshots only being appended |
| `Cctv.Monitor.CaptureFaceSnapshot` | src/pages/CCTV.jsx:76-92 | with a webcam, one snapshot is appended and all earlier ones kept |
| `FaceRecognitionHook.Classify` | src/hooks/useFaceRecognition.js:77-83 | "Visitor not found" wins over "Face not recognized", which wins over the generic message; each of the three messages is given exactly in its case |
| `FaceRecognitionHook.Settle` | src/hooks/useFaceRecognition.js:64-72 | a truthy reply is returned unchanged; a falsy one becomes "Face not recognized or invalid response"; a thrown error keeps its message |
| `FaceRecognitionHook.ErrorFieldNeverRaised` | src/hooks/useFaceRecognition.js:18-23 | a reply carrying an `error` field is still returned unchanged |
| `FaceRecognitionHook.FalsyReplyClassified` | src/hooks/useFaceRecognition.js:25-34 | a falsy reply is classified as an unrecognised face, not as an unknown visitor |
| `FaceRecognitionHook.Hook.constructor` | src/hooks/useFaceRecognition.js:5-7 | no result, not loading, no error |
| `FaceRecognitionHook.Hook.HandleIdentifyFace` | src/hooks/useFaceRecognition.js:9-42 | sends the stripped image to identify; never throws; keeps and returns a truthy reply, otherwise returns nothing and sets the classified error; `loading` ends false |
| `FaceRecognitionHook.Hook.HandleFaceRecognition` | src/hooks/useFaceRecognition.js:45-89 | check-in when `isClockIn`, else check-out; the error is cleared, the outcome is the settled reply, a failure sets the classified error and rethrows the original message; `loading` ends false |
| `FaceRecognition.NoRequestWithinGap` | src/components/FaceRecognition/FaceRecognition.jsx:107 | the gate `ShouldIdentify` never lets an identification through within 1500 ms of the last one, whatever the face |
| `FaceRecognition.KnownFaceNotResent` | src/components/FaceRecognition/FaceRecognition.jsx:102-106 | the condition `WantsIdentification` rejects a named face that moved less than 0.6, so it is not sent again |
| `FaceRecognition.RetryAfterUnrecognised` | src/components/FaceRecognition/FaceRecognition.jsx:105-107 | after "Face not recognized" the same face is sent again as soon as the gap has passed |
| `FaceRecognition.AdjustedBox` | src/components/FaceRecognition/FaceRecognition.jsx:85-90 | mirrored across the canvas width, same width, same bottom edge, extended upwards by 40% of the face height |
| `FaceRecognition.Screen.constructor` | src/components/FaceRecognition/FaceRecognition.jsx:12-27 | initial state: "loading...", no alert, no visitor, time ref at mount time |
| `FaceRecognition.Screen.FinishLoading` | src/components/FaceRecognition/FaceRecognition.jsx:30-43 | models flag on success, "Error loading models" error alert on failure |
| `FaceRecognition.Screen.DetectFace` | src/components/FaceRecognition/FaceRecognition.jsx:64-136 | a face tick: the gate decides the request, passing it stamps the time even without a screenshot, so requests are over 1500 ms apart; the previous descriptor always becomes the current one; no face resets the name to "loading..." |
| `FaceRecognition.Screen.IdentifyFace` | src/components/FaceRecognition/FaceRecognition.jsx:46-61 | a reply with a visitor shows the visitor's name and clears the alert; anything else shows "Face not recognized" with a warning; the hook keeps a truthy reply as its result and classifies any failure; `loading` ends false |
| `FaceRecognition.Screen.TakePicture` | src/components/FaceRecognition/FaceRecognition.jsx:147-184 | records which button was pressed; no screenshot gives "No face detected"; success gives "Clock-in successful" or "Clock-out successful" and the matching callback; a failure quotes the error; the hook's result and error are those of the settled reply; "Face not recognized" never appears |
| `DisplayMessage.Show` | src/components/FaceRecognition/DisplayMessage.js:3-35 | nothing without a visitor or attendance; otherwise the view `Render` builds: the check-in heading (`CheckInMessage`) in green or the check-out heading (`CheckOutMessage`) in blue, each naming the visitor, the visitor's fields copied, and the check-out line exactly when `check_out` is truthy |
| `DisplayMessage.HeadingNameRoundTrip` | src/components/FaceRecognition/DisplayMessage.js:7-8 | the visitor's name is recovered from either heading |
| `DisplayMessage.HeadingsDiffer` | src/components/FaceRecognition/DisplayMessage.js:7-10 | a check-in heading never equals a check-out heading |
| `Register.FieldErrors` | src/components/Auth/Register.jsx:77-82 | one entry per missing listed field, under its own name, with its fixed message |
| `Register.Validate` | src/components/Auth/Register.jsx:75-85 | the error keys are exactly the missing fields plus `image` when no photo is present, each with its fixed message |
| `Register.ValidateEmptyIff` | src/components/Auth/Register.jsx:75-85 | no errors exactly when all six fields are non-empty and a photo is present |
| `Register.FormOf` | src/components/Auth/Register.jsx:108-116 | the inverse renaming gives back a form with all six fields |
| `Register.PassingFormHasPhoto` | src/components/Auth/Register.jsx:83 | a form that passes validation always has a photo to send |
| `Register.PayloadRoundTrip` | src/components/Auth/Register.jsx:108-116 | the renaming `ToPayload` loses nothing: payload to form gives back the six fields, and form to payload rebuilds the payload |
| `Register.SentPayloadFilled` | src/components/Auth/Register.jsx:99-116 | a payload that is sent has no empty field and carries the photo |
| `Register.EmptyFormComplete` | src/components/Auth/Register.jsx:124-131 | the reset form has all six fields |
| `Register.RegisterForm.constructor` | src/components/Auth/Register.jsx:7-23 | six empty fields, no errors, no photo, not capturing |
| `Register.RegisterForm.HandleChange` | src/components/Auth/Register.jsx:67-73 | only the named field changes |
| `Register.RegisterForm.StartCapture` | src/components/Auth/Register.jsx:143-145 | capturing starts |
| `Register.RegisterForm.CapturePhoto` | src/components/Auth/Register.jsx:87-95 | with a webcam the photo becomes the header-less screenshot; a missing screenshot throws and keeps the photo |
| `Register.RegisterForm.HandleFaceDetection` | src/components/Auth/Register.jsx:51-65 | while capturing, a frame with a face captures the photo and one without clears the detected flag |
| `Register.RegisterForm.HandleSubmit` | src/components/Auth/Register.jsx:97-141 | invalid: errors and "Please fix the errors in the form", nothing sent; valid: the renamed payload is sent; success resets fields, photo and capturing; failure keeps them; earlier errors are not cleared; `loading` ends false |
| `Register.RegisterForm.Send` | src/components/Auth/Register.jsx:104-139 | the valid branch: the renamed payload of the current fields and photo is sent; success resets the six fields, the photo and capturing, failure keeps them; `loading` ends false |
| `Login.Validate` | src/components/Auth/Login.jsx:28-39 | "Username is required" exactly for an empty username; for the password, "Password is required" when empty and "Password must be at least 6 characters" when its JavaScript length (UTF-16 code units) is 1 to 5 |
| `Login.ValidateEmptyIff` | src/components/Auth/Login.jsx:28-39 | no errors exactly when the username is non-empty and the password is at least 6 UTF-16 code units long |
| `Login.EmojiPasswordLongEnough` | src/components/Auth/Login.jsx:35 | a password of three emoji (three characters, six code units) passes validation with any non-empty username |
| `Login.EffectAsWritten` | src/components/Auth/Login.jsx:14-18 | as written, the effect empties any non-empty errors whenever the errors object or a field changed |
| `Login.ValidationErrorsVanishAsWritten` | src/components/Auth/Login.jsx:14-18 | as written, the errors set by a submit with an empty username are cleared by the very next effect run |
| `Login.EffectIntended` | src/components/Auth/Login.jsx:14-18 | with the intended dependencies, errors are emptied exactly when a field changed |
| `Login.ValidationErrorsPersistIntended` | src/components/Auth/Login.jsx:14-18 | the errors of a failed submit stay until a field is edited |
| `Login.LoginForm.constructor` | src/components/Auth/Login.jsx:6-12 | empty fields, no errors, not loading |
| `Login.LoginForm.HandleChange` | src/components/Auth/Login.jsx:20-26 | only the named field changes; an edit of the username or password clears the errors |
| `Login.LoginForm.HandleSubmit` | src/components/Auth/Login.jsx:41-74 | the request is sent only when validation finds nothing; `ok` stores the token and reports "Login successful!"; otherwise "Login failed" or the thrown message; `loading` ends false |
| `Home.FilteredVisitors` | src/pages/Home.jsx:84-96 | an order-preserving subsequence in which each visitor that `Matches` the keyword occurs exactly as often as in the table, and no other visitor occurs |
| `Home.EmptyKeywordKeepsAll` | src/pages/Home.jsx:84-96 | an empty keyword keeps every visitor |
| `Home.FilterSplits` | src/pages/Home.jsx:84 | searching two concatenated lists gives the matches of each, in order |
| `Home.NameIgnoresCase` | src/pages/Home.jsx:86-92 | for a visitor known by name and company only, the keyword's case does not matter |
| `Home.NikAndBirthDateMatchedAsTyped` | src/pages/Home.jsx:85-91 | for a visitor with neither name nor company, a keyword matches exactly when the NIK or the birth date contains it as typed, without lower-casing |
| `Home.NikIsCaseSensitive` | src/pages/Home.jsx:85-91 | consequence of the lemma above: "AB12" finds NIK "AB12" and "ab12" does not |
| `Home.WithoutId` | src/pages/Home.jsx:66 | an order-preserving subsequence in which each visitor with another id occurs exactly as often as before, and no visitor with that id occurs |
| `Home.WithoutIdIdempotent` | src/pages/Home.jsx:66 | deleting the same id again removes nothing more |
| `Home.Dashboard.constructor` | src/pages/Home.jsx:31-37 | no visitors, empty keyword, no alert |
| `Home.Dashboard.SetSearchKeyword` | src/pages/Home.jsx:110 | the search box sets the keyword |
| `Home.Dashboard.HandleDeleteVisitor` | src/pages/Home.jsx:63-72 | after a successful delete exactly that id's visitors leave the list; on failure the list is unchanged; the snackbar reports which |
| `Home.Dashboard.ShowAlert` | src/pages/Home.jsx:52-56 | sets type and message and opens the snackbar |
| `Home.Dashboard.CloseSnackbar` | src/pages/Home.jsx:58-61 | closes the snackbar and clears the message |
| `VisitorMonitoring.Endpoint` | src/pages/VisitorMonitoringPage.jsx:16-18 | the today path exactly when the selected date is today; otherwise the by-date path, from which the date is read back |
| `VisitorMonitoring.EndpointInjective` | src/pages/VisitorMonitoringPage.jsx:16-18 | different past or future dates are asked for at different paths |
| `VisitorMonitoring.ClockedIn` | src/pages/VisitorMonitoringPage.jsx:23 | an order-preserving subsequence in which each visitor with a truthy clock-in time occurs exactly as often as in the reply, and no other visitor occurs |
| `VisitorMonitoring.ClockedInIdempotent` | src/pages/VisitorMonitoringPage.jsx:23 | filtering again removes nothing more |
| `VisitorMonitoring.RowOf` | src/pages/VisitorMonitoringPage.jsx:90-95 | "N/A" for a missing clock-in; "Still visiting" for a missing clock-out or total; status "Left" exactly when clocked out |
| `VisitorMonitoring.FetchedRowsShowClockIn` | src/pages/VisitorMonitoringPage.jsx:92 | a fetched visitor's row always shows its own clock-in time, never "N/A" |
| `VisitorMonitoring.MonitoringPage.constructor` | src/pages/VisitorMonitoringPage.jsx:6-9 | today's date, no visitors, not loading, no error |
| `VisitorMonitoring.MonitoringPage.FetchVisitors` | src/pages/VisitorMonitoringPage.jsx:11-38 | asks the chosen endpoint; success keeps the clocked-in visitors; failure sets the fixed error and keeps the list; `loading` ends false |
| `VisitorMonitoring.MonitoringPage.ChangeDate` | src/pages/VisitorMonitoringPage.jsx:40-42 | a new date is stored and that day is fetched |

## Left out

- Face-api model loading and inference, and the numerics of `euclideanDistance`, are not modelled. They are foreign calls and floating point. Distance is the parameter `dist`, and detections, landmarks and boxes are inputs. Model loading is reduced to its success flag (`FinishLoading`).
- FaceDetection.PaddedRegion and FaceRecognition.AdjustedBox compute on exact reals: the rounding of JavaScript's double arithmetic in the padding and the 0.4 and 1.4 factors is not modelled.
- Login.Validate counts a character beyond U+FFFF as two code units, as JavaScript does, but Dafny strings cannot hold the unpaired surrogates a JavaScript string may contain.
- Canvas drawing is not modelled: boxes, names, landmarks, the FPS text, `drawImage` and `toDataURL`. The image a capture produces is an input (`Cctv.Sighting.image`). `FaceRecognition.Screen.DetectFace` returns the rectangle it would stroke.
- Timers are not modelled: the `setInterval` ticks, the `onLoadedData` trigger and the `lodash.debounce` wrapper. Each tick is one method call. The debounce's collapsing of calls made within one second is not modelled: `FaceRecognition.Screen.IdentifyFace` models one call of the debounced function when it fires.
- Asynchrony is reduced to atomic steps. A handler runs from its start to its end with the awaited reply as an input. Consequently:
  - the intermediate `loading = true` is not observable;
  - handlers that overlap in time are not modelled;
  - `detectFace` reading the `displayName` of an older render is modelled as reading the current one.
- The HTTP services (`faceRecognitionService`, `api`, `fetch`) are not part of this model. Their replies are inputs, and so is the `Date.now()` / `toISOString` value standing for "today".
- Locale formatting (`toLocaleTimeString`, `toLocaleString`) is not modelled. Timestamps are input strings, and `DisplayMessage.Show` carries the check-in and check-out times as the API's strings.
- The map keys of the detection utility are stringified descriptors that are parsed back with `split(',')` and `Number`. They are modelled as the descriptors themselves, so the text round trip is taken to be exact.
- `Common.Lower` only lower-cases ASCII letters. JavaScript's `toLowerCase` also folds other Unicode letters.
- JavaScript object key order is not modelled: the validation error maps are Dafny maps.
- The Home page's initial `fetchVisitors` and its details modal (`handleViewDetails`, `handleCloseModal`) are not modelled. They only copy a reply or a clicked row into state.
- `Login.LoginForm.HandleChange` uses the corrected effect dependencies (see Findings). The source's effect, which also depends on `errors`, is modelled by `Login.EffectAsWritten`.
- `Register.RegisterForm.CapturePhoto`: an exception from a missing screenshot is reported as `threw`. The rejected promise that follows in the source is not modelled.
- `useAuth`, the routing and layout components, and the thin page wrappers are not part of this model.

## Findings

| source | as written | input that shows it | evidently intended | confidence | as-written member | corrected member |
|---|---|---|---|---|---|---|
| src/components/Auth/Login.jsx:14-18 | the error-clearing effect lists `errors` among its dependencies, so it runs right after `handleSubmit` stores new validation errors and empties them | submit with username "" and any password: `validate` gives `{username: "Username is required"}`, and the next effect run resets it to `{}` | clear the errors only when the username or the password changes | high, not executed | `Login.ValidationErrorsVanishAsWritten` | `Login.ValidationErrorsPersistIntended` |
