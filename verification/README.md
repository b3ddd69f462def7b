# EcoTrack in Dafny

EcoTrack is a waste-collection web app with three kinds of account. Citizens schedule pickups, drivers accept and complete them, and an agency manages drivers and routes. A chatbot classifies waste from a text description or a photo. This project models the app's decision logic as pure Dafny functions over immutable data and proves properties about them. The logic covered is:

- **The waste classifier** (`WasteClassifierChatbot.tsx`):
  - the keyword table of the text path;
  - feature extraction from the RGB pixel grid;
  - the Sobel edge counter;
  - the seven-rule cascade of the image path;
  - the fallbacks when an image cannot be loaded.
- **The pickup document** shared by the dashboards, and its per-status counters (`Pickups`).
- **The driver dashboard**:
  - the two snapshot-merge updaters;
  - accepting and completing a pickup;
  - the action each listed request offers.
- **The agency dashboard**:
  - the waste-type and per-day analytics charts;
  - the guards on adding a driver or a route;
  - the three delete cascades and their feedback messages.
- **The user dashboard**:
  - the scheduling validation and the request it writes;
  - the waste-type options;
  - the newest-first history.
- **The route guard and router** (`App.tsx`) and **the landing page** (`Landing.tsx`):
  - role resolution at sign-in and sign-up;
  - the new user record;
  - the error-code messages;
  - the persistence choice.

Several inputs are parameters rather than computed values:

- Firestore, Firebase Auth and Google Maps appear only through their results: a snapshot of a collection, whether a write succeeded, an error code, or whether a route was found.
- The `Math.random()` draw is a parameter `r` with `0 <= r < 1`.
- Dates are whole seconds or day numbers.

Two features of the source are encoded so that the model needs no square roots:

- The texture measure is kept squared.
- The edge test `sqrt(gx² + gy²) > 30` is the exact integer test `Sx² + Sy² > 8100` on channel sums.

Modules: `Common`, `Categories`, `TextClassifier`, `Pixels`, `Edges`, `Features`, `ImageClassifier`, `Pickups`, `DriverView`, `Agency`, `UserView`, `Roles`.

Notes on the code as written:

- The text path hard-codes `recyclable` in each branch rather than testing category membership. `TextClassifier.AnalyzeText` proves the hard-coded flags agree with the membership list.
- The image rule cascade cannot fire the plastic rule and the metal rule on the same image: one needs `edgeDensity < 0.1` and the other `edgeDensity > 0.1`.

## Model

| member | source | states |
|---|---|---|
| Categories.TableIsComplete | src/components/WasteClassifierChatbot.tsx:63-72 | The category table lists all eight categories, and their display names are distinct. |
| Categories.RecyclableMembership | src/components/WasteClassifierChatbot.tsx:63-72 | A category is recyclable exactly when it is Plastic, Paper, Glass or Metal. |
| Categories.FirstWhere | src/components/WasteClassifierChatbot.tsx:125-226 | First-match search returns a category of the order that satisfies the test. It returns none exactly when no category does. |
| Categories.FirstWhereIsEarliest | src/components/WasteClassifierChatbot.tsx:350-411 | When the k-th category satisfies the test, the search finds one at position k or earlier. |
| TextClassifier.HasKeywordIff | src/components/WasteClassifierChatbot.tsx:112-114 | A keyword list matches exactly when some keyword of it occurs as a substring of the text. |
| TextClassifier.AnalyzeText | src/components/WasteClassifierChatbot.tsx:106-228 | A text match is never Mixed. Its confidence lies in [0.82, 0.90]. Its recyclable flag agrees with category membership, and its instructions are the category's. |
| TextClassifier.AnalyzeIsTableMatch | src/components/WasteClassifierChatbot.tsx:109-226 | The text classifier equals a first-match search of the seven keyword lists, in priority order, over the lower-cased text. Each category gets its fixed confidence. |
| TextClassifier.CaseInsensitive | src/components/WasteClassifierChatbot.tsx:109-114 | Classifying a text gives the same result as classifying its lower-cased form. |
| TextClassifier.BottleIsPlastic | src/components/WasteClassifierChatbot.tsx:124-155 | Any text containing "bottle" is Plastic, never Glass, because the plastic list is tried first. |
| TextClassifier.HandleSendOutcomes | src/components/WasteClassifierChatbot.tsx:81-103 | A blank or whitespace-only message is never processed. Otherwise the reply is a classification exactly when some list matches, and a request for an image otherwise. |
| Common.TrimEmptyIffAllSpace | src/components/WasteClassifierChatbot.tsx:82 | Trimming yields the empty string exactly when every character is whitespace. |
| Common.LowerIdempotent | src/components/WasteClassifierChatbot.tsx:109 | Lower-casing twice is the same as lower-casing once. |
| Common.ContainsLower | src/components/WasteClassifierChatbot.tsx:109-114 | A lower-case keyword found in a text is still found in the lower-cased text. |
| Features.Extract | src/components/WasteClassifierChatbot.tsx:311-342 | On a non-empty image: every channel average and the brightness lie in [0, 255], and the squared texture measure is non-negative. The edge density lies in [0, 1), and a brown image is neither green nor blue. |
| Features.UniformFeatures | src/components/WasteClassifierChatbot.tsx:311-342 | For a single-colour image: the averages are the pixel's channels, the texture is zero and the edge density is zero. The colour flags follow from that one pixel. |
| Edges.DetectEdges | src/components/WasteClassifierChatbot.tsx:458-505 | The double loop over interior pixels returns the number of interior pixels whose Sobel magnitude exceeds 30. |
| Edges.EdgeCountBound | src/components/WasteClassifierChatbot.tsx:465-498 | The edge count is 0 when the image is narrower or shorter than 3. Otherwise it is at most (w-2)(h-2), and it is always below the pixel count of a non-empty image. |
| Edges.UniformHasNoEdges | src/components/WasteClassifierChatbot.tsx:465-498 | A single-colour image has no edges. |
| ImageClassifier.Classify | src/components/WasteClassifierChatbot.tsx:345-411 | The cascade's result is recyclable exactly for Plastic, Paper, Glass and Metal. Its confidence lies in [0.75, 0.99), Mixed has exactly 0.75, and its instructions are the category's. |
| ImageClassifier.ClassifyIsFirstMatch | src/components/WasteClassifierChatbot.tsx:350-411 | The cascade picks the first of the seven rules, in order, whose predicate holds, and Mixed when none holds. |
| ImageClassifier.MixedIffNoRule | src/components/WasteClassifierChatbot.tsx:345-411 | The result is Mixed exactly when no rule fires. |
| ImageClassifier.FirstMatchWins | src/components/WasteClassifierChatbot.tsx:350-411 | When rule k fires, the result is rule k or an earlier rule, never a later one. |
| ImageClassifier.BrightGlassIsPlastic | src/components/WasteClassifierChatbot.tsx:355-377 | An image that satisfies the glass rule, has brightness above 200 and has edge density below 0.1 is classified as Plastic. |
| ImageClassifier.FlatFeaturesClass | src/components/WasteClassifierChatbot.tsx:355-409 | With zero texture and no edges, only the plastic rule can fire. |
| ImageClassifier.UniformImageClass | src/components/WasteClassifierChatbot.tsx:332-338 | A single-colour image is Plastic when it is blue-dominant or its channel sum exceeds 600. Otherwise it is Mixed at 0.75. |
| ImageClassifier.AnalyzeImage | src/components/WasteClassifierChatbot.tsx:287-455 | A load or canvas failure yields Mixed at 0.7, not recyclable. An empty image yields no answer. Every answer has confidence in [0.7, 0.99) and consistent recyclable flag and instructions. |
| UserView.WasteTypeOptionsAreCategories | src/pages/UserDashboard.tsx:74-83 | The waste-type options are exactly the classifier's eight categories, in the same order. |
| Pickups.CountStatus | src/pages/AgencyDashboard.tsx:294-296 | A status counter is the length of the requests filtered by that status, so it never exceeds the number of requests. |
| Pickups.StatusCountsBounded | src/pages/DriverDashboard.tsx:222-224 | pending + accepted + completed never exceeds the number of requests. |
| Pickups.Counts | src/pages/AgencyDashboard.tsx:294-297 | The total is the number of requests and bounds the sum of the three counters. |
| Pickups.Update | src/pages/DriverDashboard.tsx:166-169 | `updateDoc` fails exactly when no document has the id. Otherwise it changes the documents with that id and leaves every other document as it was. |
| Pickups.ResetPendingEffect | src/pages/AgencyDashboard.tsx:853-861 | The reset loop succeeds exactly when every listed id names a document. Each document whose id is among the ids processed before the first missing one is set to pending, and the others are unchanged. |
| Pickups.SortNewestFirst | src/pages/UserDashboard.tsx:133-138 | The sort is a permutation of its input, and it keeps every request dated when all were. |
| Pickups.SortIsNewestFirst | src/pages/UserDashboard.tsx:133-138 | When every request has `createdAt`, the sorted history is newest first. |
| Pickups.SortKeepsSorted | src/pages/AgencyDashboard.tsx:541-547 | A list already newest first is left unchanged, because the sort is stable. |
| DriverView.MergePending | src/pages/DriverDashboard.tsx:118-123 | The merged list is the previous non-pending entries, in their original order, followed by the snapshot. Its length is the previous length minus the pending count plus the snapshot length. |
| DriverView.MergePendingIdempotent | src/pages/DriverDashboard.tsx:97-123 | Re-applying the same all-pending snapshot changes nothing. |
| DriverView.MergeAssigned | src/pages/DriverDashboard.tsx:137-144 | The merged list ends with the snapshot. Before it come the previous entries that are pending or whose id no snapshot entry has, in order, and as many of them as there are such entries in the previous list, so identical copies all survive. |
| DriverView.PendingCopySurvives | src/pages/DriverDashboard.tsx:139-144 | A pending entry and the assigned copy of the same document can both be in the merged list. |
| DriverView.HandleAccept | src/pages/DriverDashboard.tsx:162-196 | Without a user, or when no document has the id, nothing changes. Otherwise that document becomes accepted by the driver and no other field or document changes; the request as listed is selected, and the directions point at its location when a route is found. |
| DriverView.HandleComplete | src/pages/DriverDashboard.tsx:199-210 | The document becomes completed at `now` and nothing else changes. On success the selection and directions are cleared, and on failure nothing changes. |
| DriverView.AcceptShiftsCounts | src/pages/DriverDashboard.tsx:162-176 | In the collection, each document counted once (as the agency dashboard counts them), accepting a pending request moves exactly one request from the pending counter to the accepted counter. |
| DriverView.CompleteShiftsCounts | src/pages/DriverDashboard.tsx:199-210 | In the collection, each document counted once, completing an accepted request moves exactly one request from the accepted counter to the completed counter. |
| DriverView.ListAction | src/pages/DriverDashboard.tsx:578-605 | The list offers Accept exactly for pending requests, and offers Complete only for accepted ones. |
| DriverView.AcceptThenOffers | src/pages/DriverDashboard.tsx:470 | Right after accepting, a list built from the updated collection offers Complete on the updated document. The detail panel does not, because it holds the request as it was listed, still pending. |
| Agency.WasteTypeChart | src/pages/AgencyDashboard.tsx:239-254 | The waste-type chart: keys are distinct, every count is at least 1, and the counts sum to the number of requests. Each key's count is the number of requests with that type, a missing type counts as "Unknown", and every request's type appears. |
| Agency.BumpWasteLookup | src/pages/AgencyDashboard.tsx:242-247 | One counter step adds one to the bumped key and leaves every other key's count unchanged. |
| Agency.AnalyticsChart | src/pages/AgencyDashboard.tsx:203-237 | The analytics chart is in strictly ascending day order. Each entry counts exactly the dated requests of its day, with completed ≤ pickups and pickups ≥ 1. The pickups sum to the number of dated requests, and every dated request's day appears. |
| Agency.GroupEntry | src/pages/AgencyDashboard.tsx:206-231 | The grouped entry of a day counts the requests created that day, and those of them that are completed. Requests without `createdAt` are skipped. |
| Agency.SortByDay | src/pages/AgencyDashboard.tsx:234-236 | The sort is a permutation that keeps the pickups total, and the result is ascending when days are distinct. |
| Agency.AddDriver | src/pages/AgencyDashboard.tsx:256-270 | A driver is added exactly when name, email and phone are all filled and the `addDoc` write succeeds. The new driver is appended with status "available", and nothing else changes. |
| Agency.AddRoute | src/pages/AgencyDashboard.tsx:272-287 | A route is added exactly when driverId and date are filled and the `addDoc` write succeeds. The new route is appended with no pickups and status "scheduled", and nothing else changes. |
| Agency.DeletePickup | src/pages/AgencyDashboard.tsx:805-816 | The pickup is gone, and the drivers are unchanged. Every route loses that id and keeps its other ids in order, and a route that does not list the id is unchanged. |
| Agency.DeleteDriver | src/pages/AgencyDashboard.tsx:817-848 | The driver and every route of that driver are gone, and the other drivers and routes remain. The driver's pickups are reset to no driver and pending, and the other pickups are unchanged. |
| Agency.DeleteRoute | src/pages/AgencyDashboard.tsx:849-862 | Exactly the route with that id is removed, and the drivers are unchanged. Deleting an unknown route touches no pickup. |
| Agency.DeleteRouteResets | src/pages/AgencyDashboard.tsx:853-861 | When every listed pickup exists, the delete succeeds. Every pickup listed in the route becomes pending, and the others are unchanged. |
| Agency.DeleteRouteStopsAtMissing | src/pages/AgencyDashboard.tsx:853-861 | A listed pickup that does not exist makes the delete fail. Pickups listed after it are left as they were. |
| Agency.AddThenDeleteDriver | src/pages/AgencyDashboard.tsx:256-270 | Adding a driver with a fresh id and then deleting it restores the snapshot. |
| Agency.AddThenDeleteRoute | src/pages/AgencyDashboard.tsx:272-287 | Adding a route with a fresh id and then deleting it restores the snapshot, and the delete succeeds. |
| Agency.Capitalize | src/pages/AgencyDashboard.tsx:875 | Capitalising keeps the length, upper-cases the first character and keeps the rest. |
| Agency.CapitalizeUndoneByLower | src/pages/AgencyDashboard.tsx:875 | Capitalising changes only letter case: lower-casing the result gives the lower-cased input. |
| Agency.FeedbackDistinguishes | src/pages/AgencyDashboard.tsx:873-889 | Distinct kinds and outcomes give distinct feedback messages. |
| Agency.ConfirmDelete | src/pages/AgencyDashboard.tsx:801-890 | When the first `deleteDoc` fails, nothing changes and "Error deleting <kind>. Please try again." is shown. Otherwise no item of the deleted kind has the id. A pickup or driver delete reports "<Kind> deleted successfully!", and a route delete reports success or the error according to whether resetting its pickups succeeded. |
| UserView.Schedule | src/pages/UserDashboard.tsx:152-206 | Missing fields or no user is rejected, and so is a date before today. Otherwise the request is created exactly when the write succeeds. A created request is pending, carries the user's uid and email and the form's fields, and has the default location when none is known. |
| UserView.ScheduleEffect | src/pages/UserDashboard.tsx:152-206 | A created request adds exactly one pending request to the counters. Every other outcome writes nothing and shows an error. |
| UserView.PastDateNeverWritten | src/pages/UserDashboard.tsx:157-168 | A valid request dated before today is refused with the future-date message, and nothing is written. |
| UserView.History | src/pages/UserDashboard.tsx:133-138 | The history is a permutation of the user's requests, and it is newest first when every request has `createdAt`. |
| Roles.EmailRole | src/App.tsx:93-94 | The email role is "driver" exactly when the email contains @driver.com. It is "agency" exactly when the email contains @agency.com but not @driver.com, and "user" otherwise. |
| Roles.GuardRole | src/App.tsx:93-103 | A stored non-empty role overrides the email role, and a user without an email is a user. |
| Roles.Guard | src/App.tsx:82-120 | With no user, or when the lookup throws, the guard goes to "/". Otherwise it grants exactly when the resolved role is allowed, and otherwise redirects to that role's dashboard. |
| Roles.PathOf | src/App.tsx:109 | The pathname `navigate` takes from its target is the longest prefix holding no `#` and no `?`. |
| Roles.RouteTable | src/App.tsx:135-160 | The router matches a pathname ignoring letter case and trailing slashes. Navigating to the dashboard path of a plain role (none of `#`, `?`, `/`, `\`, tab, line break or `%` in it) reaches the dashboard that admits the lower-cased role when that is a known role, and the landing page otherwise. A pathname goes to the landing page exactly when its matching form is none of the four table paths, and each protected page admits one known role. |
| Roles.RouterIgnoresCaseAndSlash | src/App.tsx:135-160 | A location is routed like its lower-cased form, and a slash appended to it changes nothing. |
| Roles.RedirectSettles | src/App.tsx:105-125 | A redirect for a known role lands on a page whose guard grants access. Any other role is never admitted: if it lands on a dashboard, that guard redirects to the same target, so the protected route renders nothing. A role known only up to letter case lands on that role's dashboard. A plain role that is not known up to case ends on the landing page. |
| Roles.CapitalisedRoleIsStuck | src/App.tsx:105-125 | A stored role "Driver" is sent to "/Driver-dashboard", which is served by the driver dashboard, whose guard sends it to the same path again. |
| Roles.HashRoleIsStuck | src/App.tsx:105-125 | A stored role such as "driver-dashboard#" is sent to a target whose pathname is that known role's dashboard, whose guard sends it to the same target again. |
| Roles.SignInRole | src/pages/Landing.tsx:82-98 | At sign-in an email indicator wins. The stored role is used only without one, and the default is "user". |
| Roles.OppositePrecedence | src/pages/Landing.tsx:82-98 | Sign-in and the route guard agree on the role exactly when there is no indicator, no stored role, or the stored role equals the email role. |
| Roles.SignInBounce | src/App.tsx:93-110 | A driver-domain account stored as "user" signs in to the driver dashboard and is redirected from there to the user dashboard. |
| Roles.SignUpRole | src/pages/Landing.tsx:107-111 | At sign-up the selected role is used when non-empty. Otherwise the email role is used. |
| Roles.NewUserRecord | src/pages/Landing.tsx:114-119 | The new user record has points, equal to 0, exactly when the role is "user". |
| Roles.PersistenceFor | src/pages/Landing.tsx:75 | Local persistence is used exactly when "remember me" is set. |
| Roles.AuthErrorWording | src/pages/Landing.tsx:126-140 | Unknown-user and wrong-password read the same. Listed codes read the same in both modes, and any other code gets a mode-dependent generic message, different for sign-in and sign-up. |
| Roles.Submit | src/pages/Landing.tsx:69-142 | A thrown error shows its message. A sign-in goes to the resolved role's dashboard. A sign-up writes the new record and goes to its role's dashboard. |
| Roles.SignUpLandsOnOwnDashboard | src/pages/Landing.tsx:107-122 | A new account with a known role is sent to a dashboard that admits the role written in its record. |

## Left out

- Firestore, Firebase Auth and Google Maps are external services. Their outcomes are parameters:
  - the snapshot contents;
  - `writeOk`, `authError`, `routeFound`;
  - the `users` lookup;
  - the ids `addDoc` assigns;
  - `Timestamp.now()`.
- `updateDoc` failures are modelled only as a missing document. Network and permission failures are not.
- Agency.ConfirmDelete: only a failure of the first `deleteDoc` is modelled. A failure of a later write in the pickup or driver cascade (a route update, a route delete, a pickup reset) leaves a partial cascade and the error message; that case is not modelled.
- Agency.WasteTypeChart: waste types that name `Object.prototype` members (`toString`, `constructor`, `valueOf`, `hasOwnProperty`, `__proto__`) are not modelled. The counter object inherits a truthy value for such a key, so it is never reset to 0: the key ends with NaN, or, for `__proto__`, is dropped.
- Concurrency and subscription timing (`onSnapshot` callbacks interleaving) are left out. Each updater is modelled as one call on one snapshot.
- The `Math.random()` draw is a parameter. Floating-point rounding is left out: confidences and features are exact reals.
- The `sqrt` in the texture measure and in the edge magnitude is avoided by comparing squares. The two forms are equivalent because both sides are non-negative.
- Canvas decoding, image scaling and the alpha channel are left out. The model starts from the decoded RGB grid. An image with no pixels makes `getImageData` throw, so the promise never settles; this is modelled as "no answer".
- `setTimeout` delays, the typing indicator, chat history, the loading spinners and all rendering are UI. They are left out.
- `toLowerCase`, `toUpperCase` and `trim` are modelled for ASCII letters and a fixed whitespace set. Unicode case mapping and the full Unicode space set are left out.
- Roles.RouteFor: route matching ignores case for ASCII letters only. Percent-decoding of the location is not modelled.
- Roles.RouteTable: where a dashboard path leads is stated only for plain roles, which hold none of `#`, `?`, `/`, `\`, tab, line feed, carriage return or `%` (`Roles.Rewritten`). The browser's URL parsing of the pushed URL is not modelled: it drops tabs and line breaks, reads `\` as `/`, removes `.` and `..` segments, and the router decodes percent escapes. So roles such as "dri\tver", "\..\driver" or "%64river" reach the driver dashboard. For `#` and `?`, `Roles.PathOf` and `Roles.HashRoleIsStuck` cover the pathname. For every role, `Roles.RedirectSettles` still shows that a role that is not known is never admitted on the page the model routes it to.
- Roles.RedirectSettles: the landing-page clause is stated only for plain roles, for the same reason.
- Date parsing, locale formatting and time zones are left out:
  - a request's day is `seconds / 86400`;
  - the dialog's date is a day number, or none when it does not parse. In the source, `new Date(date)` reads a `YYYY-MM-DD` string as UTC midnight, and the comparison with local midnight (`UserDashboard.tsx:157-160`) then uses that instant's local day. West of UTC this is the day before, so today's date is refused there. The model compares day numbers only;
  - "today" is a parameter.
- `Object.entries` order for integer-like keys (which JavaScript lists first, in numeric order) is left out. Entries keep insertion order.
- Document ids are assumed unique within a collection where a lemma needs it (`DriverView.UniqueIds`).
- DriverView.AcceptShiftsCounts: stated over the collection, not over the driver dashboard's merged list (`DriverDashboard.tsx:222-224`). That list can hold the pending and the assigned copy of one document (`DriverView.PendingCopySurvives`), and then its pending counter can drop by two.
- DriverView.CompleteShiftsCounts: stated over the collection, not over the driver dashboard's merged list, for the same reason.
- DriverView.AcceptThenOffers: stated for a list built from the updated collection, not for the merged list after the next snapshots.
- Pickups.SortNewestFirst: ordering is proved only when every request has `createdAt`. The source comparator returns 0 for undated requests, which makes it inconsistent, so the engine's order is then unspecified. The model proves only the permutation in that case.
- UserView.History: newest-first order is stated only when every request has `createdAt`, for the same reason.
- Roles.SignInRole: a stored `role` that is not a string is not modelled. The stored role is a string, with "" for missing.
- `src/config/firebase.ts` and `src/components/CityModel.tsx` are not part of this model: one is configuration and the other is 3D scenery.
