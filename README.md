# Civic-issue platform: user API and voice-agent page, in Dafny

This project models three pieces of a civic-issue reporting web application
(Next.js) and proves properties of them:

- `GET /api/user/issues` (module `UserIssues`, `issues.dfy`): the signed-in
  user's issues, narrowed by optional exact-match `status` and `category` query
  filters, sorted newest first, with `meta` (total, whether anything was
  filtered out, the filters echoed back). The sort is an in-place insertion
  sort on an array, proved to give a newest-first permutation of the filtered
  list.
- `GET`, `PUT` and `DELETE /api/user/profile` (module `UserProfile`,
  `profile.dfy`): the hosted database is a class `Database` with two tables.
  `users` and `user_profiles` are maps from user id to row. Every client call
  is appended to a log, so the order of writes can be stated. `GET` reads the
  joined row, or creates a row holding only `user_id` when there is none. `PUT`
  renames the user when the body has `full_name`, upserts the recognised
  profile fields, then reads the result back. `DELETE` deletes the `users` row.
  Every reply is flattened: `full_name`, `email` and `avatar` come from the
  joined user.
- The voice-agent page (module `VoiceAgent`, `voice.dfy`): the five-valued
  call state (`disconnected`, `connecting`, `connected`, `disconnecting`,
  `null`) with its error message. A class `VoiceChatInterface` holds that
  state. Its methods are the call button and the voice SDK's callbacks. Each
  method is proved against a pure transition function `Next` and an effect
  function `Effects`. The rendered screen (`Render`) is a function of the
  state.

`common.dfy` (module `Common`) holds `Option` and the user-id type.

Inputs from outside the code are parameters:
- the session resolver's answer is `Option<UserId>` (`None` is "no user");
- the issue store is a sequence of issues;
- whether the database client is configured is `db == null`;
- each database or store call that can fail takes a `fails` flag;
- the request body is `Option<Row>` (`None`: it does not parse or is `null`);
- the `updated_at` timestamp is a `now` value;
- the configured agent id is an `Option<string>`;
- what `startConversation` catches is a `Thrown` value.

## Model

| member | source | states |
|---|---|---|
| UserIssues.Applies | app/api/user/issues/route.ts:26-32 | `if (status)` / `if (category)`: an absent (`null`) or empty filter does not apply; any non-empty one does |
| UserIssues.Echo | app/api/user/issues/route.ts:50-53 | `q \|\| null`: the echoed filter is non-null exactly when the filter is present and non-empty, and is then the filter itself |
| UserIssues.KeepWhere | app/api/user/issues/route.ts:26-36 | `.filter` on one field keeps no more than it is given, only issues it was given, and every kept issue has the requested value |
| UserIssues.FindByUserId | app/api/user/issues/route.ts:21 | the store's per-user lookup returns only issues owned by that user |
| UserIssues.KeepWhereCount | app/api/user/issues/route.ts:26-36 | a filter keeps each matching issue exactly as many times as it occurs, and drops every non-matching one |
| UserIssues.KeepWhereAll | app/api/user/issues/route.ts:26-36 | a filter keeps the length exactly when every issue matches; when all match, the list is unchanged |
| UserIssues.FilteredCount | app/api/user/issues/route.ts:24-36 | after both filters, each issue's multiplicity is its multiplicity in the user's list if it matches both applicable filters, and 0 otherwise |
| UserIssues.Filtered | app/api/user/issues/route.ts:24-36 | the two truthiness-gated `.filter` steps give a list no longer than the user's list, drawn from it, whose every issue matches both filters |
| UserIssues.FilteredChangesLength | app/api/user/issues/route.ts:49 | `meta.filtered` (the length changed) holds exactly when some issue of the user fails an applicable filter |
| UserIssues.NoFilterKeepsAll | app/api/user/issues/route.ts:24-36 | with both filters absent or empty, the list passes through unchanged |
| UserIssues.SwapWithPrevious | app/api/user/issues/route.ts:39-42 | one insertion-sort step swaps two neighbours and keeps the same multiset |
| UserIssues.InsertNewestFirst | app/api/user/issues/route.ts:39-42 | inserting `a[i]` into a newest-first prefix gives a newest-first prefix one longer, as a permutation |
| UserIssues.SortNewestFirst | app/api/user/issues/route.ts:39-42 | the in-place sort by descending `createdAt` leaves the array newest first and a permutation of its input |
| UserIssues.GetUserIssues | app/api/user/issues/route.ts:6-66 | no user gives 401 without reading the store; a store failure gives 500 "Failed to fetch issues"; otherwise `data` is newest first and holds, with multiplicity, exactly the user's issues that match the applicable filters; `total` is its length; `filtered` says the length differs from the user's list; the echoed filters are `status \|\| null` and `category \|\| null` |
| UserProfile.Joined | app/api/user/profile/route.ts:24-33 | the inner-join select returns the profile's columns plus a nested `users` object carrying the user's name, email and avatar |
| UserProfile.Flatten | app/api/user/profile/route.ts:68-76 | the reply keeps every column of the row and sets `full_name`, `email` and `avatar` from the nested user; those three override columns of the same name |
| UserProfile.FlattenedIdentity | app/api/user/profile/route.ts:57-75 | a flattened joined row shows the user's name, email and avatar whatever the profile row holds, and every other profile column unchanged |
| UserProfile.Pick | app/api/user/profile/route.ts:156-205 | the fields of a given list that the body defines, each with the body's value |
| UserProfile.Patch | app/api/user/profile/route.ts:156-205 | the profile update holds exactly the recognised profile fields that the body defines, with the body's values (`null` included) |
| UserProfile.PickExtend | app/api/user/profile/route.ts:158-205 | one more `if (x !== undefined) profileUpdate.x = x` adds field `x` with the body's value exactly when the body defines it |
| UserProfile.PickAllIsPatch | app/api/user/profile/route.ts:156-205 | running every test of the handler's field list yields the whole patch |
| UserProfile.ProfileFieldsComplete | app/api/user/profile/route.ts:101-134 | the handler's list of profile fields names every recognised profile field |
| UserProfile.BuildPatch | app/api/user/profile/route.ts:155-205 | building the update field by field, in the handler's order, yields `Patch(body)`: every defined recognised field and nothing else (never `full_name`, `user_id` or `updated_at`) |
| UserProfile.Upserted | app/api/user/profile/route.ts:208-220 | the upserted row has the old row's columns plus the patch, `user_id` and `updated_at`; patched fields take the patch's values, `updated_at` is the new timestamp, other columns keep their values |
| UserProfile.DefaultRow | app/api/user/profile/route.ts:42-44 | the row a first `GET` inserts holds only `user_id` |
| UserProfile.Renamed | app/api/user/profile/route.ts:144-148 | the name update changes only the caller's `users` row, and only its `name`; with no such row, nothing changes |
| UserProfile.UpsertedTable | app/api/user/profile/route.ts:208-225 | an accepted upsert adds or replaces only the caller's profile row |
| UserProfile.Database.SelectJoined | app/api/user/profile/route.ts:24-38 | the `.single()` read logs one select; it finds the joined row when both rows exist, reports not-found when either is missing, and fails when the store fails; no table changes |
| UserProfile.Database.InsertDefault | app/api/user/profile/route.ts:41-55 | the insert logs one call; it adds the default row and returns it joined exactly when the store does not fail, the profile is new and the user exists; otherwise it fails and no table changes |
| UserProfile.Database.UpdateName | app/api/user/profile/route.ts:144-153 | the name update logs one call and, unless it fails, applies `Renamed`; profiles are untouched |
| UserProfile.Database.Upsert | app/api/user/profile/route.ts:208-225 | the upsert logs one call and succeeds exactly when the store does not fail and the profile or its user exists; on success it applies `UpsertedTable`; users are untouched |
| UserProfile.Database.Delete | app/api/user/profile/route.ts:284-291 | the delete logs one call and, unless it fails, removes the caller's `users` row |
| UserProfile.GetProfile | app/api/user/profile/route.ts:6-87 | 401 with no call when there is no user; "Database not configured" without a client; a found row is returned flattened after one select; on not-found it inserts, and the reply is the flattened default row when the insert succeeds; every store error, and an insert error, gives 500 "Failed to fetch profile" |
| UserProfile.PutWrites | app/api/user/profile/route.ts:143-225 | the `PUT` write sequence: at most two calls; no `users` row is created or deleted; when a write fails the profiles table is as before (a name already written stays written) |
| UserProfile.WriteProfileUpdate | app/api/user/profile/route.ts:143-225 | the `PUT` writes do exactly what `PutWrites` describes: tables, outcome and the calls made in order |
| UserProfile.EmptyPayloadWritesNothing | app/api/user/profile/route.ts:143-225 | a body with no `full_name` and no recognised field makes no write at all |
| UserProfile.PutWriteOrder | app/api/user/profile/route.ts:143-225 | the name update comes first, when `full_name` is present; the upsert comes second, exactly when the name write did not fail and the patch is non-empty; a failed name write changes nothing |
| UserProfile.PutKeepsOtherProfiles | app/api/user/profile/route.ts:155-225 | `PUT` never changes another user's profile row; with an empty patch the profiles table is unchanged |
| UserProfile.PutKeepsOtherUsers | app/api/user/profile/route.ts:143-153 | `PUT` never changes another user's `users` row |
| UserProfile.PutPatchesCallerRow | app/api/user/profile/route.ts:155-225 | suppose neither write fails, the profile or its user exists, and the body has a recognised field; then the writes succeed, and the caller's profile row exists and holds every recognised field from the body, a fresh `updated_at`, and its other columns unchanged |
| UserProfile.PutProfile | app/api/user/profile/route.ts:90-263 | 401 with no call when there is no user; an unparsable or `null` body gives "Failed to update profile" before the configuration check; without a client, "Database not configured"; otherwise the tables are as `PutWrites` leaves them; the read-back runs only after successful writes; success returns the message and the flattened joined row; any failure gives "Failed to update profile" |
| UserProfile.DeleteProfile | app/api/user/profile/route.ts:266-307 | 401 and "Database not configured" make no call; otherwise exactly one delete on the caller's `users` row is logged and nothing else is written; success says "Account deleted successfully", failure "Failed to delete account" |
| VoiceAgent.AgentId | app/voice-agent/page.tsx:14-19 | the agent id is the configured one when it is set and non-empty, otherwise the built-in id; it is never empty |
| VoiceAgent.StatesPartitioned | app/voice-agent/page.tsx:72-74 | every state is exactly one of idle (`disconnected` or `null`), in a call (`isCallActive`), or transitioning (`isTransitioning`) |
| VoiceAgent.IsCallActive | app/voice-agent/page.tsx:72 | `isCallActive`: the state is `"connected"`; it never holds together with `isTransitioning` |
| VoiceAgent.IsTransitioning | app/voice-agent/page.tsx:73-74 | `isTransitioning`: the state is `"connecting"` or `"disconnecting"` |
| VoiceAgent.IsIdle | app/voice-agent/page.tsx:63 | the `"disconnected"`-or-`null` test (also at lines 145 and 184) holds exactly when neither `isCallActive` nor `isTransitioning` does |
| VoiceAgent.Orb | app/voice-agent/page.tsx:98-104 | the orb is "talking" exactly when connected, "thinking" exactly when connecting, and `null` otherwise |
| VoiceAgent.Render | app/voice-agent/page.tsx:111-243 | a set, non-empty error takes the status panel's place; otherwise an idle state shows the description, and any other state shows an indicator (shimmering state name while transitioning, "Connected" otherwise); the hint shows exactly when idle; the button is disabled exactly while transitioning; the ring, red button and tips show exactly in a call; the icon is loader, hang-up or microphone for transitioning, in a call, idle |
| VoiceAgent.ShowsError | app/voice-agent/page.tsx:135 | `errorMessage ?`: `null` and the empty string show no error; the microphone message is shown |
| VoiceAgent.Next | app/voice-agent/page.tsx:36-70 | the transition table of `handleCall`, `startConversation`'s catch, `onStatusChange` and `onError`: only the call button and a failed start touch the error; a failed start or an SDK error always ends disconnected; the button changes nothing while transitioning and always changes the state otherwise; a changed error is cleared or is the microphone message; no event turns a state into `null` |
| VoiceAgent.Effects | app/voice-agent/page.tsx:42-70 | each event makes at most one call: only the call button and a granted microphone call out; the session is ended only from a call in progress, the microphone is requested only from idle, and a session starts only with the configured agent |
| VoiceAgent.CallIgnoredIffDisabled | app/voice-agent/page.tsx:62-70 | pressing the call button changes nothing and calls nothing exactly in the states where the button is disabled |
| VoiceAgent.CallFromIdleClearsError | app/voice-agent/page.tsx:42-65 | a call from idle clears the error, moves to connecting and requests the microphone, after which the button is disabled |
| VoiceAgent.StartFailureDisconnects | app/voice-agent/page.tsx:51-59 | a failed start always ends disconnected; an error is set afterwards exactly when the failure was a `NotAllowedError` DOM exception or an error was already set; a refusal shows the microphone message |
| VoiceAgent.NextKeepsReachable | app/voice-agent/page.tsx:28-70 | no event makes the state `null`, and no event sets an error other than the microphone message |
| VoiceAgent.RunKeepsReachable | app/voice-agent/page.tsx:28-70 | the same holds after any sequence of events |
| VoiceAgent.ErrorNeedsRefusal | app/voice-agent/page.tsx:42-59 | an error is set at the end of a run only if one was set at the start or the microphone permission was refused during the run |
| VoiceAgent.InitialRuns | app/voice-agent/page.tsx:29-70 | from the first render, the state is never `null`; any error shown is the microphone message, and it follows a refusal |
| VoiceAgent.VoiceChatInterface.constructor | app/voice-agent/page.tsx:29-30 | the page starts disconnected, with no error and no SDK call |
| VoiceAgent.VoiceChatInterface.HandleCall | app/voice-agent/page.tsx:62-70 | from idle: connecting, error cleared, microphone requested; in a call: session ended, then disconnected; while transitioning: nothing changes |
| VoiceAgent.VoiceChatInterface.MicrophoneGranted | app/voice-agent/page.tsx:45-50 | once the microphone is granted, one session is started with the configured agent; the state is left to the SDK |
| VoiceAgent.VoiceChatInterface.StartConversationFailed | app/voice-agent/page.tsx:51-59 | a failed start sets disconnected and sets the microphone message only for a `NotAllowedError` DOM exception |
| VoiceAgent.VoiceChatInterface.OnStatusChange | app/voice-agent/page.tsx:49 | the page takes on the status the SDK reports |
| VoiceAgent.VoiceChatInterface.OnError | app/voice-agent/page.tsx:36-39 | an SDK error sets disconnected from any state and leaves the error message alone |

## Left out

- The volume normalisation (`getInputVolume`/`getOutputVolume`, app/voice-agent/page.tsx:76-84) is not modelled. It is floating-point display arithmetic.
- Layout, styling, animation and static text are not modelled. This includes the agent's name and description, the hint and tips text, class names and motion.
- `components/navigation.tsx`, `components/protected-route.tsx` and `next.config.ts` are not part of this model. They are context around the core.
- Console logging is not modelled.
- The session resolver (`getUserFromRequest`) is an `Option<UserId>` input. A resolver that throws, which each handler's `catch` would turn into a 500, is not modelled.
- `issueDb.findByUserId` lives in `lib/db`, which this model does not cover. It is modelled as an order-preserving filter on owner over a sequence of all issues.
- Timestamps are integers. `new Date(x).getTime()` on an unparsable date gives `NaN`, and a comparator returning `NaN` is not modelled.
- UserIssues.SortNewestFirst: stability (issues with equal `createdAt` keep their order) is not stated. The source relies on the engine's `Array.prototype.sort`, whose algorithm is not part of this model; only newest-first order and the permutation are proved.
- The database's own semantics are abstracted:
  - a `.single()` read is "found", "not found" (`PGRST116`) or "failed";
  - a new profile row needs an existing user (the foreign key);
  - the inserted row holds only `user_id`, because column defaults are the database's.
- `updated_at` is an opaque `now` value. The ISO date formatting is not modelled.
- UserProfile.DeleteProfile: cascade deletion of the profile and other dependent rows is the database's behaviour. The model states only that the handler deletes the `users` row and writes nothing else, so `profiles` is left as it was.
- UserProfile.BuildPatch: the 28 `if (x !== undefined)` statements are modelled as one loop over the ordered field table `ProfileFields`. Each step copies one defined field, which gives the same patch in the same order.
- Request-body parsing is not modelled. A body that does not parse as JSON, or is `null`, is the input `None`. A body that is a JSON array, string or number is not modelled. Keys that are not recognised are `Other` and are ignored, as the destructuring ignores them.
- UserProfile.PutProfile: the key encoding is assumed canonical. A body key that has its own constructor (`phone`, `full_name`, `email`, ...) is always that constructor, never `Other("phone")`. Nothing in the model enforces this: a body written with `Other("phone")` is treated as an unrecognised key, while the handler would copy `phone`.
- JSON numbers are unbounded integers. Floating-point values are not modelled.
- A first `GET` racing another `GET` for the same new user is not modelled, and neither are other concurrent requests. Each handler runs alone against the tables.
- React specifics are not modelled: batching of state updates, stale closures in `useCallback`, and interleavings of async continuations beyond the events modelled. The continuations of `startConversation` after `getUserMedia` are separate events (`MicrophoneGranted`, `StartConversationFailed`), and any order of events is allowed.
- The SDK's own behaviour is not modelled: which statuses it reports, when it calls `onError`, `onConnect`, `onDisconnect` and `onMessage`. Those callbacks only log.
