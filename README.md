# Photo-App-Mobile client core, modelled in Dafny

This project models the client-side logic of the Photo-App-Mobile React
Native application, a photo-sharing app with real-time chat. The parts
modelled are:

- the **socket connection manager**: one shared socket, six lists of
  subscribed handlers, disposer functions, and the emits guarded by "is
  there a socket";
- the **chat screen**:
  - resolving who the current user is;
  - parsing the route;
  - creating or opening a chat by user id or by email;
  - paged message history;
  - socket listeners and the typing timer;
  - sending a message;
  - deciding whether a message is mine, the other user's or a stranger's;
- the **chat list**: normalising the list reply, one live message listener
  that is unsubscribed on unmount, joining every room, and the
  other-participant rule;
- the **signup, forgot-password and reset-password forms**: their
  validation order, the e-mail pattern, password length in UTF-16 code
  units, and every server-error message;
- the **own-profile screen**:
  - deriving the profile from the stored user;
  - own and liked photos;
  - toggling visibility;
  - deleting a photo;
  - logging out;
- the **other-user profile screen**: the two-endpoint photo fetch, the
  token chain of "start chat", and its error branches;
- the **search screen**, the **photo detail screen** (likes, detail load,
  visibility toggle) and the **`usePhotos`** feed hook;
- the **upload screen**: its guards, the form sent, the success and
  cancel flows, and the button's enable rule;
- the **shared axios instance**: attaching the stored token, and refreshing
  once and replaying the request on a 401.

JavaScript values are modelled by a `Json` datatype (`Js` module):

- `Undefined`, `Null`, `Bool`, `Num`, `Str`, `Arr` and `Obj`;
- truthiness, `||`, `??`, property access, string conversion and
  `String.prototype.trim`.

A property read on `null` or `undefined`, which throws a `TypeError` in the
app, appears in the model as `None` or as the app's resulting error path.

Screens are classes whose fields are the React state. Each handler becomes a
method that takes the reply of every network call it makes as a parameter
(`Http.Reply`, either a `Response` with a status and a body or a `Network`
failure), together with the local storage it reads (`Common.Storage`, a
map). A method returns the requests it would send and states the new
screen state. An `async` handler that awaits a reply mid-way is split in two
(`SendCode`/`CodeReply`, `ResetPassword`/`ResetReply`,
`BeginFetch`/`CompleteFetch`). Timers are explicit pending flags or sets,
fired by a method of their own.

Some of what the code does is easy to misread, and the model states it as
the code has it:

- the like handler (screens/PhotoDetailScreen.tsx:99-102) tests `likes` with
  `!== undefined`, so a `likes: null` passes the guard; the `??` that follows
  then takes the nested count, even when that is undefined;
- `removeSocketListeners` (screens/ChatScreen.tsx:234-240) is meant to cancel
  the chat screen's listeners, but it calls `onMessage`, `onTyping`,
  `onStopTyping` and `onError` with four new empty functions. That subscribes
  four more handlers and removes none;
- in `createOrGetChat` (screens/ChatScreen.tsx:409-419) the email path's inner
  catch rethrows every failure with a different text. So the outer test
  `err.message === 'Không tìm thấy người dùng với email này'` never matches the
  not-found error it was written for.

## Model

| member | source | states |
|---|---|---|
| Socket.WithoutRemovesExactly | services/socketService.ts:170-172 | the disposer's filter removes every occurrence of its handler and keeps each other handler exactly as often as before |
| Socket.WithoutSubset | services/socketService.ts:170-172 | after disposal only handlers that were subscribed remain |
| Socket.WithoutConcat | services/socketService.ts:170-172 | the filter works piecewise over a split list, so survivors keep their order |
| Socket.WithoutAbsent | services/socketService.ts:170-172 | disposing a handler that is not subscribed leaves the list as it was |
| Socket.WithoutIdempotent | services/socketService.ts:170-172 | calling a disposer twice has the effect of calling it once |
| Socket.SubscribeThenDispose | services/socketService.ts:166-173 | subscribing a new handler and then calling its disposer restores the list |
| Socket.DeliveriesInOrder | services/socketService.ts:221-248 | a notification calls every subscribed handler once, in subscription order, with the payload |
| Socket.DeliveriesConcat | services/socketService.ts:221-248 | notifying a concatenated list equals notifying its parts one after the other |
| Socket.SocketService.constructor | services/socketService.ts:26-33 | a new service has no socket, no emits and six empty handler lists |
| Socket.SocketService.NewHandler | services/socketService.ts:166 | a new callback is fresh: it is in no handler list |
| Socket.SocketService.Subscribe | services/socketService.ts:166-218 | `on*` appends the handler to its own list only and returns the disposer for exactly that handler and list |
| Socket.SocketService.Dispose | services/socketService.ts:166-218 | a disposer filters its handler out of its own list and touches no other list |
| Socket.SocketService.Notify | services/socketService.ts:221-248 | `notify*` delivers the payload to the current handlers of that event in order |
| Socket.SocketService.Connect | services/socketService.ts:36-64 | an already connected socket is kept and nothing else happens; without a token no socket is opened and the error handlers are told; with one a new unconnected socket carrying that token replaces the old one |
| Socket.SocketService.Receive | services/socketService.ts:67-98 | each inbound event reaches exactly the handlers of its kind; connect and disconnect events also set the connected flag |
| Socket.SocketService.EmitIfSocket | services/socketService.ts:101-150 | an emit is recorded exactly when a socket exists |
| Socket.SocketService.JoinRoom | services/socketService.ts:101-109 | `joinChat` emits `joinChat` with the id only when a socket exists |
| Socket.SocketService.LeaveRoom | services/socketService.ts:112-120 | `leaveChat` emits `leaveChat` only when a socket exists |
| Socket.SocketService.Send | services/socketService.ts:123-130 | `sendMessage` emits the chat id and text only when a socket exists |
| Socket.SocketService.SendTyping | services/socketService.ts:133-140 | `sendTyping` emits `typing` only when a socket exists |
| Socket.SocketService.SendStopTyping | services/socketService.ts:143-150 | `sendStopTyping` emits `stopTyping` only when a socket exists |
| Socket.SocketService.Disconnect | services/socketService.ts:153-163 | after `disconnect` there is no socket and it reports not connected; every handler list is unchanged |
| ChatIdentity.FirstTruthy | screens/ChatScreen.tsx:257-290 | the first truthy candidate of an `\|\|` chain, or none exactly when all are falsy |
| ChatIdentity.ResolveIsFirstCandidate | screens/ChatScreen.tsx:244-295 | the current user's id is the first truthy of the stored user's `_id` and `id`, then, when a token is stored and decodes to a truthy value, its claims' `id`, `_id` and `userId` |
| ChatIdentity.FirstTruthyCons | screens/ChatScreen.tsx:263 | an `\|\|` chain stops at its first operand when that is truthy and otherwise goes on with the rest |
| ChatIdentity.StoredProfileWins | screens/ChatScreen.tsx:257-274 | a stored user with an id decides the identity whatever the token says |
| ChatIdentity.NoSourceNoIdentity | screens/ChatScreen.tsx:276-290 | without a stored id and without a token (or with an empty one) no identity is found |
| ChatIdentity.SenderFormsAgree | screens/ChatScreen.tsx:582-592 | a sender given as an object with `_id`, with `id`, or as a bare string yields the same id |
| ChatIdentity.SenderPrefersUnderscoreId | screens/ChatScreen.tsx:582-592 | a non-empty `_id` wins over `id` |
| ChatIdentity.ShapelessSenderIsEmpty | screens/ChatScreen.tsx:582-592 | a sender that is neither object nor string has the empty id |
| ChatIdentity.Classify | screens/ChatScreen.tsx:595-622 | a message is mine iff the sender matches the current id or profile id, the other user's iff not mine and it matches the other user's id, otherwise a stranger's |
| ChatIdentity.SenderName | screens/ChatScreen.tsx:613-622 | my messages show my stored name, or "Me" when it is falsy; the other user's show their name, or the route's `recipient` when it is falsy; anyone else's show "Unknown User" |
| ChatIdentity.MineBeforeOther | screens/ChatScreen.tsx:595-619 | a sender matching both me and the other user is classified as mine |
| ChatIdentity.EmptySenderIsMineWithoutIdentity | screens/ChatScreen.tsx:595-601 | with no known identity, a message whose sender id is empty is classified as mine |
| ChatIdentity.UrlAlphabetToStandard | screens/ChatScreen.tsx:301 | base64url `-` and `_` become `+` and `/`, every other character is kept, the length is unchanged |
| ChatIdentity.StandardAlphabetToUrl | screens/ChatScreen.tsx:301 | the inverse substitution, character by character; the app has no encoder, and this member exists only to state the round trip of the decoding step |
| ChatIdentity.AlphabetRoundTrip | screens/ChatScreen.tsx:301 | on standard-alphabet text the two substitutions undo each other |
| ChatScreen.RouteFormsAgree | screens/ChatScreen.tsx:74-91 | the nested `user` route form and the flat form name the same target |
| ChatScreen.OtherUserIdIsTarget | screens/ChatScreen.tsx:550-577 | the other user set up from the route has the route's target id |
| ChatScreen.FindByEmailIsFirstMatch | screens/ChatScreen.tsx:377-379 | the lookup yields the first user with exactly that email when it comes before every `null` entry, and nothing iff no user before the first `null` entry has that email |
| ChatScreen.BlankTargetSendsNothing | screens/ChatScreen.tsx:333-338 | with neither a usable user id nor email no request is sent, no history is loaded, and the unknown-target error is shown |
| ChatScreen.NoTokenSendsNothing | screens/ChatScreen.tsx:321-325 | without a token nothing is sent and the not-logged-in error is shown |
| ChatScreen.UserIdPathRequest | screens/ChatScreen.tsx:341-352 | a usable user id gives exactly one create request naming the stored user first and the target second |
| ChatScreen.EmailPathOutcome | screens/ChatScreen.tsx:362-411 | the email path sends a lookup first and at most one create; every failure carries the lookup-failed message; it loads history iff it reports no error |
| ChatScreen.AfterCreateReported | screens/ChatScreen.tsx:355-359 | a created chat either loads its history or reports an error through the outer handler |
| ChatScreen.BannerShape | screens/ChatScreen.tsx:413-427 | the outer handler shows the dedicated not-found banner exactly for the not-found message, and the prefixed message for every other |
| ChatScreen.ByUserIdReported | screens/ChatScreen.tsx:341-360 | the user-id path either loads history or reports an error through the outer handler, never both |
| ChatScreen.ByEmailReported | screens/ChatScreen.tsx:362-411 | the email path either loads history or reports an error through the outer handler, never both |
| ChatScreen.PlanErrorOrFetch | screens/ChatScreen.tsx:315-431 | `createOrGetChat` ends with exactly one of an error or a history fetch, and every error but the unknown-target one carries the outer prefix |
| ChatScreen.OwnMessagesAreNotNotFound | screens/ChatScreen.tsx:322-411 | none of the messages the screen throws itself, except the rewrapped one, is the not-found text |
| ChatScreen.ByUserIdNoBanner | screens/ChatScreen.tsx:341-360 | on the user-id path the not-found banner appears only for a network failure with exactly the not-found text |
| ChatScreen.ByEmailNoBanner | screens/ChatScreen.tsx:362-411 | the email path never shows the not-found banner, since every failure is rewrapped first |
| ChatScreen.NotFoundBannerUnreachable | screens/ChatScreen.tsx:409-427 | while neither a network failure nor a stored-user parse failure carries exactly the not-found text, the not-found banner is never the error shown |
| ChatScreen.NotFoundBannerOnMatchingMessage | screens/ChatScreen.tsx:413-420 | the comparison is made on every path: a create request on the user-id path that fails with exactly the not-found text shows the banner |
| ChatScreen.ChatSession.constructor | screens/ChatScreen.tsx:93-112 | the screen starts empty, loading, on page 1 with more messages assumed and no pending timer |
| ChatScreen.ChatSession.LoadCurrentUserInfo | screens/ChatScreen.tsx:115-135 | the parsed stored user becomes the current user and its id the current id; an unparseable one changes nothing |
| ChatScreen.ChatSession.RefreshCurrentUserId | screens/ChatScreen.tsx:244-295 | the found identity is the resolved first candidate, stored as text; none found keeps the old id |
| ChatScreen.ChatSession.SetupOtherUserInfo | screens/ChatScreen.tsx:550-577 | the other user is built from the route |
| ChatScreen.ChatSession.BeginFetch | screens/ChatScreen.tsx:434-444 | the request names the chat and page; page 1 clears the error; append mode sets only the loading-more flag, other mode only the loading flag |
| ChatScreen.ChatSession.CompleteFetch | screens/ChatScreen.tsx:445-484 | a successful page is merged and becomes the current page, and a short page ends `hasMore` for good; a failure keeps the messages and shows the load error; both flags end off |
| ChatScreen.ChatSession.LoadMore | screens/ChatScreen.tsx:487-490 | the next page is requested in append mode exactly when more exist, none is loading and a chat is open; otherwise nothing changes |
| ChatScreen.ChatSession.OpenRouteChat | screens/ChatScreen.tsx:145-147 | a route chat id is shown at once and its first page requested; without one nothing changes |
| ChatScreen.ChatSession.CreateOrGetChat | screens/ChatScreen.tsx:315-431 | sends the plan's requests, shows the plan's chat and error, requests the created chat's first page, and ends not loading |
| ChatScreen.ChatSession.OnMessage | screens/ChatScreen.tsx:205-212 | a new message is put first and the identity is refreshed |
| ChatScreen.ChatSession.OnTyping | screens/ChatScreen.tsx:215-225 | the typing flag follows events from other users and ignores the captured own id |
| ChatScreen.ChatSession.OnSocketError | screens/ChatScreen.tsx:228-231 | a socket error shows the connection error text |
| ChatScreen.ChatSession.SubscribeOne | screens/ChatScreen.tsx:203-232 | the next fresh handler is appended to one kind's list; every other list is unchanged |
| ChatScreen.ChatSession.SubscribeFour | screens/ChatScreen.tsx:203-232 | four fresh handlers, the next four ids, are appended, one each to the message, typing, stop-typing and error lists; nothing else changes |
| ChatScreen.ChatSession.SetupSocketListeners | screens/ChatScreen.tsx:203-232 | the screen's four listeners are appended to their lists; connect and disconnect lists and emits are untouched |
| ChatScreen.ChatSession.RemoveSocketListeners | screens/ChatScreen.tsx:234-240 | four new empty handlers, with the next four handler ids, are appended one each to the message, typing, stop-typing and error lists with the `on*` functions; none is removed, so every earlier handler stays subscribed; the connect and disconnect lists, the socket and the emits are unchanged |
| ChatScreen.ChatSession.ClearTimer | screens/ChatScreen.tsx:497-500 | clearing a handle removes exactly the timer with that handle |
| ChatScreen.ChatSession.HandleTyping | screens/ChatScreen.tsx:493-511 | with a chat open: one typing emit (when a socket exists) and exactly one pending timer, for this chat; with none nothing changes |
| ChatScreen.ChatSession.FireTypingTimer | screens/ChatScreen.tsx:503-507 | a pending timer that fires emits stop-typing for its chat and leaves no timer pending; an unknown handle does nothing |
| ChatScreen.ChatSession.EditInput | screens/ChatScreen.tsx:786-789 | typing stores the text and, for an open chat, emits `typing` when a socket exists and restarts the single typing timer; with no open chat the timers and emits are unchanged |
| ChatScreen.ChatSession.SendMessage | screens/ChatScreen.tsx:514-538 | a non-blank text in an open chat emits stop-typing then the trimmed text, empties the input and clears the timer; otherwise nothing changes |
| ChatScreen.ChatSession.JoinOpenChat | screens/ChatScreen.tsx:172-183 | with no open chat nothing happens; for an open chat the room is joined after connecting when needed, so it is joined iff a socket existed or a token was given, and the socket and error-handler calls are those of `connect` in each of its three cases |
| ChatScreen.ChatSession.Teardown | screens/ChatScreen.tsx:157-168 | cleanup leaves the captured chat's room, clears the captured timer and runs the listener removal: each of the four screen lists grows by exactly one fresh handler, and the socket and the connect and disconnect lists are unchanged |
| ChatList.WrappersAgree | screens/ChatListScreen.tsx:115-122 | a bare array, `{chats}` and `{data}` replies give the same list |
| ChatList.ChatsBeforeData | screens/ChatListScreen.tsx:115-122 | `chats` is preferred over `data` |
| ChatList.NormaliseIdempotent | screens/ChatListScreen.tsx:115-122 | normalising an already normalised list returns it unchanged |
| ChatList.NormaliseFailsOnlyOnNullish | screens/ChatListScreen.tsx:115-122 | normalisation throws iff the reply data is nullish |
| ChatList.FindOther | screens/ChatListScreen.tsx:138-144 | a found participant is in the list and is not me; none is found iff every participant is me |
| ChatList.OtherParticipantChoice | screens/ChatListScreen.tsx:138-144 | the shown participant is the first one that is not me |
| ChatList.AllMeShowsFirst | screens/ChatListScreen.tsx:138-144 | when every participant is me, the first is shown |
| ChatList.PressMatchesShownName | screens/ChatListScreen.tsx:146-156 | pressing a chat opens it with the participant whose name the list shows |
| ChatList.NoParticipantsCannotOpen | screens/ChatListScreen.tsx:138-156 | a chat without participants shows an empty name and cannot be opened |
| ChatList.RosterKeepsEmptyId | screens/ChatListScreen.tsx:81-93 | `??` keeps an empty `_id` rather than falling back to `id` |
| ChatList.JoinsForSnoc | screens/ChatListScreen.tsx:124-128 | joining one more chat appends its join emit |
| ChatList.JoinsForEveryChat | screens/ChatListScreen.tsx:124-128 | a room is joined for every chat, in list order |
| ChatList.JoinsForPrefixStops | screens/ChatListScreen.tsx:124-128 | a nullish chat stops the joins after the chats before it |
| ChatList.ChatRoster.constructor | screens/ChatListScreen.tsx:51-58 | the list starts empty, loading, with no listener and not unmounted |
| ChatList.ChatRoster.AtMostOneLive | screens/ChatListScreen.tsx:221-256 | at most one of the screen's listeners is subscribed, and none once the ref is empty |
| ChatList.ChatRoster.FetchCurrentUserId | screens/ChatListScreen.tsx:81-93 | the stored user's `_id ?? id` becomes the current id when readable; otherwise it is kept |
| ChatList.ChatRoster.FetchChats | screens/ChatListScreen.tsx:95-135 | a readable list replaces the chats and, on a connected socket, each chat's room is joined in order; a missing token or a failed or unreadable reply keeps the old chats and shows the error; a nullish chat stops the joins and shows the error; loading ends off |
| ChatList.JoinRooms | screens/ChatListScreen.tsx:126-128 | one join per chat, in list order, up to the first nullish chat; complete exactly when no chat is nullish |
| ChatList.ChatRoster.EnsureConnected | screens/ChatListScreen.tsx:221-256 | a connected socket is left alone; otherwise a stored token opens a new socket, and without one the socket is unchanged and every error handler is told |
| ChatList.ChatRoster.RegisterListener | screens/ChatListScreen.tsx:232-243 | the old listener is disposed and exactly one new one is subscribed and kept in the ref |
| ChatList.ChatRoster.Unmount | screens/ChatListScreen.tsx:249-255 | unmounting marks the screen unmounted and disposes the kept listener, leaving none live |
| Common.RemoveKeys | screens/ProfileScreen.tsx:225-227 | the removed keys are gone and every other entry is kept |
| Js.TrimStartShape | screens/SearchScreen.tsx:25 | `trimStart` leaves a suffix not starting with white space, and only white space was dropped |
| Js.TrimEndShape | screens/SearchScreen.tsx:25 | `trimEnd` leaves a prefix not ending with white space, and only white space was dropped |
| Js.TrimEmptyIffAllSpace | screens/SearchScreen.tsx:25 | a string trims to empty iff it is all white space |
| Js.Utf16Length | screens/ResetPasswordScreen.tsx:60-62 | the length in UTF-16 code units is at least the number of characters |
| Validation.IndexOf | screens/SignupScreen.tsx:27-31 | the first position of a character, or none iff it does not occur |
| Validation.ValidEmailMatchesPattern | screens/SignupScreen.tsx:27-31 | the executable e-mail check implies `/^[^\s@]+@[^\s@]+\.[^\s@]+$/` |
| Validation.ValidFromParts | screens/ForgotPasswordScreen.tsx:30-33 | a non-empty local part without `@` or white space, then `@`, then such a domain with an inner dot, passes the check |
| Validation.PatternIsValidEmail | screens/ForgotPasswordScreen.tsx:30-33 | the pattern implies the executable check |
| Validation.FirstAtIs | screens/ForgotPasswordScreen.tsx:30-33 | an `@` with no `@` or space before it is the first `@` |
| Validation.EmailCheckIsPattern | screens/ForgotPasswordScreen.tsx:30-33 | the executable check holds iff the pattern matches |
| Validation.PaddedEmailInvalid | screens/SignupScreen.tsx:27-31 | an address with leading white space is rejected |
| Validation.TwoAtsInvalid | screens/SignupScreen.tsx:27-31 | an address with two `@` is rejected |
| Validation.SixCharactersSuffice | screens/ResetPasswordScreen.tsx:60-62 | six characters always satisfy the length rule |
| Validation.ThreeAstralCharactersPass | screens/SignupScreen.tsx:33-36 | three emoji pass the six-character rule, because length counts UTF-16 code units |
| Signup.ValidateForm | screens/SignupScreen.tsx:21-39 | empty fields are reported first, then a bad e-mail, then a short password, and no alert iff all three checks pass |
| Signup.BlankFormFailsOnEmail | screens/SignupScreen.tsx:21-31 | fields of spaces pass the empty check and fail on the e-mail |
| Signup.Spaces | screens/SignupScreen.tsx:22-25 | a string of n spaces |
| Signup.FailureMessage | screens/SignupScreen.tsx:62-71 | a 409 always shows "email taken", a network failure the network text, other statuses the server message or the default; never empty |
| Signup.HandleSignup | screens/SignupScreen.tsx:41-76 | a registration is sent iff the form validates, carrying its three fields; the alert is success with a route to login iff the server accepted |
| Signup.LoginOnlyAfterRegistration | screens/SignupScreen.tsx:52-61 | the user is sent to login iff the form validated and the server accepted |
| Signup.ConflictIgnoresServerMessage | screens/SignupScreen.tsx:63-66 | a 409 shows the fixed text whatever the server says |
| ForgotPassword.RejectionMessage | screens/ForgotPasswordScreen.tsx:62-68 | a failure shows the server message, else the unknown-email text, else (network) try-later; a nullish error body throws |
| ForgotPassword.ForgotPasswordSession.constructor | screens/ForgotPasswordScreen.tsx:23-27 | the form starts empty, with no code sent and no error |
| ForgotPassword.ForgotPasswordSession.EditEmail | screens/ForgotPasswordScreen.tsx:133 | typing sets the e-mail |
| ForgotPassword.ForgotPasswordSession.EditCode | screens/ForgotPasswordScreen.tsx:165 | typing sets the code |
| ForgotPassword.ForgotPasswordSession.SendCode | screens/ForgotPasswordScreen.tsx:36-52 | the request is sent with the untrimmed e-mail iff it is non-blank and matches the pattern; otherwise the blank or invalid error shows |
| ForgotPassword.ForgotPasswordSession.CodeReply | screens/ForgotPasswordScreen.tsx:51-72 | success marks the code sent; a failure shows the rejection message; loading ends off |
| ForgotPassword.ForgotPasswordSession.VerifyCode | screens/ForgotPasswordScreen.tsx:75-83 | navigation carries the code iff it is non-blank; otherwise the enter-code error shows |
| ResetPassword.FormError | screens/ResetPasswordScreen.tsx:65-83 | missing fields first, then a short password, then a mismatch; no error iff code, length and match all hold |
| ResetPassword.LongMatchingPairPasses | screens/ResetPasswordScreen.tsx:70-83 | a code and a long enough matching pair always pass |
| ResetPassword.MissingBeforeShort | screens/ResetPasswordScreen.tsx:70-78 | an empty confirmation is reported as missing even for a short password |
| ResetPassword.RejectionMessage | screens/ResetPasswordScreen.tsx:102-108 | a failure shows the server message, else the bad-code text, else (network) try-later; a nullish error body throws |
| ResetPassword.ResetPasswordSession.constructor | screens/ResetPasswordScreen.tsx:27-36 | the code input starts as the route's code; everything else is empty |
| ResetPassword.ResetPasswordSession.EditCode | screens/ResetPasswordScreen.tsx:200 | typing sets the code input |
| ResetPassword.ResetPasswordSession.EditPassword | screens/ResetPasswordScreen.tsx:212 | typing sets the password |
| ResetPassword.ResetPasswordSession.EditConfirm | screens/ResetPasswordScreen.tsx:231 | typing sets the confirmation |
| ResetPassword.ResetPasswordSession.VerifyToken | screens/ResetPasswordScreen.tsx:39-57 | a truthy route token is verified; a code in the reply fills the input; a rejection shows the bad-token error |
| ResetPassword.ResetPasswordSession.ResetPassword | screens/ResetPasswordScreen.tsx:65-92 | the reset is sent with the code and password iff the form has no error; otherwise that error shows |
| ResetPassword.ResetPasswordSession.ResetReply | screens/ResetPasswordScreen.tsx:94-111 | success sets the success flag and starts the login timer; a failure shows the rejection message; loading ends off |
| ResetPassword.ResetPasswordSession.FireLoginTimer | screens/ResetPasswordScreen.tsx:98-100 | the timer navigates to login iff it was pending, and only once |
| Profile.BeforeFirstAt | screens/ProfileScreen.tsx:69 | the part of the e-mail before the first `@`, containing no `@` |
| Profile.DeriveProfile | screens/ProfileScreen.tsx:60-69 | a profile exists iff the stored user is an object with a string e-mail; its name is the user's and its id is `_id ?? id` |
| Profile.HandleIsLocalPart | screens/ProfileScreen.tsx:69 | the handle is `@` followed by the local part of the e-mail |
| Profile.TransformAll | screens/ProfileScreen.tsx:112-122 | the mapped list has the same length and order, and fails iff some record is nullish |
| Profile.LikedFilter | screens/ProfileScreen.tsx:176-184 | the kept photos are exactly those whose `likedBy` includes the profile id |
| Profile.NoProfileNoLikes | screens/ProfileScreen.tsx:183 | without a profile nothing counts as liked |
| Profile.RemoveId | screens/ProfileScreen.tsx:308 | deleting keeps only photos from the list whose id differs |
| Profile.RemoveIdKeepsOthers | screens/ProfileScreen.tsx:308 | every photo with another id stays, as often as before; none with the deleted id remains |
| Profile.SetVisibility | screens/ProfileScreen.tsx:252 | the photo with the id gets the server's visibility; others are kept; the length is kept |
| Profile.FindPhoto | screens/ProfileScreen.tsx:248 | the first photo with the id, or none iff no photo has it |
| Profile.VisibilityTouchesOnlyTarget | screens/ProfileScreen.tsx:252 | photos with other ids are unchanged, and the target changes only in its visibility |
| Profile.OwnPhotosKeepOrder | screens/ProfileScreen.tsx:106-122 | the grid shows one tile per returned photo, in reply order, with its `_id` |
| Profile.ProfileSession.constructor | screens/ProfileScreen.tsx:13-20 | the screen starts without a profile and with empty lists |
| Profile.ProfileSession.LoadProfile | screens/ProfileScreen.tsx:50-77 | with a token and a readable stored user the derived profile is set and photos are fetched; otherwise the screen goes to login |
| Profile.ProfileSession.FetchPhotos | screens/ProfileScreen.tsx:81-145 | a request is sent iff a token is stored; a readable list replaces the photos and the count; a 401 logs out and keeps them; other failures clear the list |
| Profile.ProfileSession.FetchLikedPhotos | screens/ProfileScreen.tsx:150-207 | with a token and a readable reply the liked photos are set; every other case empties them |
| Profile.ProfileSession.Logout | screens/ProfileScreen.tsx:218-230 | the logout request carries the stored token; the three session keys are removed and the screen goes to login |
| Profile.ProfileSession.ToggleVisibility | screens/ProfileScreen.tsx:246-258 | a request flips the found photo's visibility; a usable reply applies the server's value; otherwise nothing changes |
| Profile.ProfileSession.DeletePhoto | screens/ProfileScreen.tsx:290-329 | a request is sent iff a token is stored; success removes the photo and decrements the count; a 401 logs out; otherwise nothing changes |
| UserProfile.ToPublicAll | screens/UserProfileScreen.tsx:80-84 | the mapped list has the same length and order, and fails iff some record is nullish |
| UserProfile.KeepOwned | screens/UserProfileScreen.tsx:112-114 | the client filter keeps exactly the photos the viewed user owns under any of the four owner fields |
| UserProfile.FallbackShowsOnlyOwned | screens/UserProfileScreen.tsx:95-125 | every tile from the fallback request comes from a photo the viewed user owns |
| UserProfile.ChatTokenIsFirstFound | screens/UserProfileScreen.tsx:148-182 | the chat token is the first truthy of `accessToken`, `token`, `userToken` and the stored user's token fields |
| UserProfile.ExpiryKeepsAccessToken | screens/UserProfileScreen.tsx:263-269 | on a 401 the `accessToken` entry survives the cleanup |
| UserProfile.UserProfileSession.constructor | screens/UserProfileScreen.tsx:39-44 | the screen starts with the route's user, no photos and the photo fetch in progress |
| UserProfile.UserProfileSession.FetchUserPublicPhotos | screens/UserProfileScreen.tsx:47-132 | the user's endpoint is asked iff a token and an id exist; its list is shown when usable; otherwise the general endpoint is asked and only owned photos are shown |
| UserProfile.UserProfileSession.HandleChatPress | screens/UserProfileScreen.tsx:143-301 | a create request is sent iff a usable token and id exist; each outcome (login prompt, invalid token, missing id, opened chat, expiry prompt with token cleanup, status message, default) follows its branch |
| Search.ToItems | screens/SearchScreen.tsx:32-37 | the tiles have the same length and order, and fail iff some record is nullish |
| Search.TilesKeepRecords | screens/SearchScreen.tsx:31-49 | each tile opens the detail with exactly the record it was made from, in reply order |
| Search.SearchSession.constructor | screens/SearchScreen.tsx:20-22 | an empty query and no results |
| Search.SearchSession.EditQuery | screens/SearchScreen.tsx:103 | typing sets the query |
| Search.SearchSession.Search | screens/SearchScreen.tsx:24-44 | the untrimmed query is sent iff it is not blank; a readable reply replaces the results; every failure keeps them |
| PhotoDetail.NullLikesFallThrough | screens/PhotoDetailScreen.tsx:99-102 | a null top-level count passes the guard and leaves the count undefined |
| PhotoDetail.Toggled | screens/PhotoDetailScreen.tsx:151-153 | a loaded detail keeps every other field and gets the negated visibility; no detail stays null |
| PhotoDetail.ToggleTwiceRestores | screens/PhotoDetailScreen.tsx:151-153 | toggling a detail with a boolean visibility twice restores it |
| PhotoDetail.PhotoDetailSession.constructor | screens/PhotoDetailScreen.tsx:59-78 | the screen starts from the route photo, its id and its like count, with no detail loaded |
| PhotoDetail.PhotoDetailSession.Like | screens/PhotoDetailScreen.tsx:80-114 | a like is sent for the photo id iff a token is stored; a reply carrying a count updates it; a failure shows the axios message |
| PhotoDetail.PhotoDetailSession.LoadDetail | screens/PhotoDetailScreen.tsx:121-144 | a usable reply replaces the detail and syncs the count; otherwise both are kept; loading ends off |
| PhotoDetail.PhotoDetailSession.ToggleVisibility | screens/PhotoDetailScreen.tsx:151-153 | the detail becomes its toggled form and the count re-syncs |
| UsePhotos.ToFeed | hooks/usePhotos.ts:58-67 | the feed has the same length and order, and fails iff some record is unreadable |
| UsePhotos.Outcome | hooks/usePhotos.ts:44-76 | 404 and the other statuses get their own texts; a network failure shows its message, or the default when that is empty; a 2xx without a photo array gets the missing-list text, and a nullish body or an unreadable record the `TypeError`; the feed loads iff the reply is 2xx with a readable photo array |
| UsePhotos.FailureHasText | hooks/usePhotos.ts:70-76 | every failure shows a non-empty text |
| UsePhotos.PhotoFeed.constructor | hooks/usePhotos.ts:20-23 | the hook starts loading, with no photos and no error |
| UsePhotos.PhotoFeed.FetchPhotos | hooks/usePhotos.ts:25-80 | the query carries page and limit; a load replaces the photos and clears the error; a failure empties them and shows its text |
| Upload.GuardImpliesEnabled | screens/UploadScreen.tsx:257-259 | whenever the handler would upload and nothing is in flight, the button is enabled |
| Upload.BlankDescriptionEnablesButton | screens/UploadScreen.tsx:257-259 | a description of spaces enables the button, but the handler then refuses |
| Upload.UploadSession.constructor | screens/UploadScreen.tsx:10-15 | the form starts empty and public |
| Upload.UploadSession.PickImage | screens/UploadScreen.tsx:35-37 | the picked image becomes the selection |
| Upload.UploadSession.EditDescription | screens/UploadScreen.tsx:302 | typing sets the description |
| Upload.UploadSession.EditKeywords | screens/UploadScreen.tsx:312 | typing sets the keywords |
| Upload.UploadSession.SetPublic | screens/UploadScreen.tsx:321 | the switch sets the visibility |
| Upload.UploadSession.Upload | screens/UploadScreen.tsx:44-199 | a form is sent iff an image, a non-blank description and a token exist, carrying the form fields and the bearer token; each refusal has its alert; success iff accepted |
| Upload.UploadSession.ConfirmSuccess | screens/UploadScreen.tsx:167-179 | confirming the success clears image, description, keywords and progress and keeps the visibility |
| Upload.UploadSession.Cancel | screens/UploadScreen.tsx:202-234 | a confirmation is asked iff anything has been entered |
| Upload.UploadSession.ConfirmCancel | screens/UploadScreen.tsx:216-226 | discarding resets everything, visibility to public, leaving nothing entered |
| Api.PendingRequest.constructor | services/apiService.ts:23-25 | a new request is not yet retried |
| Api.ApiClient.constructor | services/apiService.ts:5 | an instance over the given storage has sent nothing |
| Api.ApiClient.AttachToken | services/apiService.ts:8-17 | the request interceptor sets the header from the stored token |
| Api.ApiClient.Dispatch | services/apiService.ts:19-46 | each request goes out; a first 401 marks it retried and refreshes once with the stored refresh token; on success both tokens are stored and the request is replayed with the new header, which settles the call; every other case rejects with the first error; at most one refresh and one replay happen |

## Left out

- Network, storage and timers. Every `axios`, `fetch` and `AsyncStorage` result is a parameter, and storage is a map. Axios's rule that non-2xx replies take the failure path is part of the model.
- Decoding JSON web tokens. Base64 decoding and `JSON.parse` are not modelled; the decoded claims are a parameter. Only the alphabet substitution is modelled.
- `JSON.parse` of stored users. It appears as a parsed, missing or unparseable stored value (`Js.Stored`), not as a parser.
- `res.json()` parse failures in the detail fetch, in `usePhotos` and in ChatScreen: the three `res.json()` calls of `createOrGetChat` (screens/ChatScreen.tsx:355, :374 and :403) and the one in `fetchMessages` (screens/ChatScreen.tsx:461). The reply body is taken as already decoded, so a `SyntaxError` there, which the app sends to the outer `catch` of `createOrGetChat` or to the load-error path of `fetchMessages`, is not modelled.
- Engine-specific text. The `TypeError` message the JavaScript engine produces is the placeholder `Js.TypeErrorMessage`.
- ChatIdentity: ids are compared after `String()` conversion, modelled by `Js.ToStr` (numbers printed as integers only).
- Api.RefreshedTokens: a refresh reply whose tokens are not strings counts as a failed refresh. In the app `AsyncStorage.setItem` would be called with them.
- Api.ApiClient.Dispatch: the refresh call is made with plain axios, outside the instance, and is recorded only by its header.
- Socket.SocketService.Connect: the transport, reconnection attempts and the socket options are not modelled. The socket's events arrive through `Receive`.
- Socket.SocketService.Disconnect: the `disconnect` event that `socket.disconnect()` fires locally is not delivered.
- ChatScreen.ChatSession.OnTyping: stale closures are modelled only as the captured own id, which comes in as a parameter.
- ChatScreen.ChatSession.OnTyping: a nullish `data` makes `data.user` throw in the app, which also stops the later handlers of that `forEach` delivery (services/socketService.ts:227). The model reads the missing `user` as `undefined` and sets the flag, and its deliveries always reach every handler.
- ChatScreen:
  - the effect that rejoins when the id changes, `handleRetry` and the `sending` flag are not modelled;
  - rendering is not modelled: the 500-character input limit, `formatTime`, crashes on a message without text, and the `otherName || 'Unknown User'` header.
- ChatList.JoinsFor: the room id is emitted as `ToStr` of the chat's `_id`, a string, while the app passes `chat._id` as it is; a chat without `_id` is emitted as `"undefined"` rather than `undefined`, because the emit log holds strings.
- ChatList: pull-to-refresh, navigation options and the empty-state rendering are left out.
- Signup, ResetPassword: no trimming is modelled, because the app does none. Password length is in UTF-16 code units (`Js.Utf16Length`).
- ForgotPassword.RejectionMessage, ResetPassword.RejectionMessage: a nullish error body throws inside the catch. The model then leaves the message unchanged rather than modelling the unhandled rejection.
- Profile:
  - tab animations and the long-press menu layout are not modelled;
  - a string `likedBy` is matched by substring, as `String.prototype.includes` does;
  - the logout request goes through the shared instance and its reply is ignored, so the reply is not a parameter.
- Profile.ProfileSession.Logout: `navigation.reset` to the Login screen is recorded by setting the field `atLogin`; the navigation stack itself is not modelled.
- UserProfile.UserProfileSession.HandleChatPress: the confirmation buttons of the prompts (navigate to Login, retry) are not modelled.
- PhotoDetail:
  - ownership (`isOwner`), downloading, sharing and image sizing are not modelled;
  - spreading a non-object detail is treated as spreading `{}`;
  - the route photo must be non-nullish.
- PhotoDetail.PhotoDetailSession.Like: the fallback text "Có lỗi xảy ra khi like ảnh" is kept, although axios messages are never empty.
- Upload:
  - the Android/iOS URI and file-name plumbing, upload progress (`Math.round`) and image-picker permissions are not modelled;
  - `PickImage` takes the chosen URI.
- Upload.UploadSession.Upload: the failure alert is stated only by its title "Upload Failed". Its message follows the axios text, approximately.
- Upload.UploadSession.ConfirmSuccess: navigating back after the success alert is not returned.
- Screens and components outside this core are not part of this model: the login and home screens, the app shell and navigator, presentational components and styles.
