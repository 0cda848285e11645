# MentorHub client — a Dafny model

This project models the browser client of MentorHub, a mentoring and training
system with three roles (administrator, mentor, mentee). The model covers:

- the authentication context: its HTTP gateway attaches the stored bearer
  token, refreshes once after a 401 and logs out when the refresh fails; it
  also handles login, registration, profile update and start-up;
- the real-time channel context, and the header's notification bell, which
  merges stored and pushed notifications;
- the route-guard hook, the application's route tree and the sidebar menus,
  plus the agreement between these three statements of who may open which page;
- the session pages and components: the create and edit modals, the card, the
  list and month views, the calendar, the details modal;
- the chat page, the mentee dashboard, the mentees page, the resource library
  and the announcements page.

Components that change state step by step (contexts, modals, pages holding
lists) are classes. Each method states its whole new state in terms of the
old state and of specification functions. Derived views (filters, colours,
labels, permissions) are functions, and lemmas prove what the code promises
about them.

Everything the client receives from outside is a parameter:

- server replies, as `Outcome`/`Option` values or `succeeded` flags;
- the user's answer to `window.confirm`;
- the current time, in milliseconds;
- calendar facts such as the weekday of the 1st and the number of days of a month;
- the parsed form of a date text (`None` for an invalid date);
- the local day of a session's start.

The gateway is modelled as a `Wire`: the local storage, the replies still to
come, the requests sent so far, the next request id and the browser location.

## Model

| member | source | states |
|---|---|---|
| Common.ErrorText | msmemagalang/src/contexts/AuthContext.tsx:135 | the thrown text is the server's message when it is non-empty, and the fallback otherwise |
| Common.PageOf | msmemagalang/src/App.tsx:200-312 | a location names a page only when it is exactly that page's path |
| Common.PageOfPath | msmemagalang/src/App.tsx:200-312 | every page's own path leads back to that page |
| Common.SlashesOfPage | msmemagalang/src/App.tsx:232-261 | after its leading slash, a page path contains a slash only in the two nested pages /mentor/mentees and /mentee/mentors |
| Common.Without | src/components/Sessions/CreateSessionModal.tsx:117 | removing a value drops every copy of it and keeps every other element; nothing changes when the value is absent |
| Common.NatToStringRoundTrip | msmemagalang/src/components/Layout/Header.tsx:128 | the number rendered in a badge reads back as the same number |
| AuthGateway.Cleared | msmemagalang/src/contexts/AuthContext.tsx:80-82 | the three keys the client writes are gone and every other key keeps its value |
| AuthGateway.BearerRoundTrip | msmemagalang/src/contexts/AuthContext.tsx:49-51 | "Bearer " followed by a b64token is a credential in the form of section 2.1 of RFC 6750, and the token reads back from it |
| AuthGateway.Intercept | msmemagalang/src/contexts/AuthContext.tsx:46-55 | the request interceptor changes only the headers of a request |
| AuthGateway.InterceptCarriesStoredToken | msmemagalang/src/contexts/AuthContext.tsx:46-55 | with a non-empty stored access token the request carries Authorization "Bearer " plus that token; otherwise it is unchanged |
| AuthGateway.StorePair | msmemagalang/src/contexts/AuthContext.tsx:73-74 | storing a refreshed pair changes only the storage |
| AuthGateway.Dispatch | msmemagalang/src/contexts/AuthContext.tsx:58-88 | a call only appends to what was sent, sending at least one request; it consumes replies and never lowers the next request id |
| AuthGateway.Recover | msmemagalang/src/contexts/AuthContext.tsx:64-86 | the recovery of a first 401 consumes replies, only appends to what was sent and never lowers the next request id |
| AuthGateway.RefreshCall | msmemagalang/src/contexts/AuthContext.tsx:66-70 | the refresh POST is sent under a fresh id |
| AuthGateway.DispatchOn401 | msmemagalang/src/contexts/AuthContext.tsx:63-65 | unfolding step: a first 401 on an unflagged request hands the request, now flagged, to the recovery |
| AuthGateway.RecoverAfterRefresh | msmemagalang/src/contexts/AuthContext.tsx:69-76 | unfolding step: after a delivered refresh the new pair is stored and the flagged request is sent again |
| AuthGateway.RecoverAfterFailedRefresh | msmemagalang/src/contexts/AuthContext.tsx:77-82 | unfolding step: after a failed refresh the keys are cleared, the location becomes /login and the original error is rejected |
| AuthGateway.FirstSentIsIntercepted | msmemagalang/src/contexts/AuthContext.tsx:46-55 | the first request on the wire is the caller's request as the request interceptor left it |
| AuthGateway.DispatchIds | msmemagalang/src/contexts/AuthContext.tsx:58-88 | while dispatching, every request sent is the original or carries an id handed out during the call |
| AuthGateway.RecoverIds | msmemagalang/src/contexts/AuthContext.tsx:64-86 | the same for the recovery |
| AuthGateway.RefreshAvoids | msmemagalang/src/contexts/AuthContext.tsx:69 | the refresh call sends nothing under an id handed out before it |
| AuthGateway.EachRequestRetriedAtMostOnce | msmemagalang/src/contexts/AuthContext.tsx:63-76 | a request is sent at most twice in all, and at most once when it is already flagged |
| AuthGateway.FlaggedSentAtMostOnce | msmemagalang/src/contexts/AuthContext.tsx:64-76 | during recovery the flagged request is sent at most once more |
| AuthGateway.RefreshChain | msmemagalang/src/contexts/AuthContext.tsx:58-88 | when the request and then every refresh answer 401, k refresh answers of 401 produce k + 1 refresh POSTs after the request, none flagged; the outermost 401, its message included, is rejected; the storage is cleared and the browser sent to /login once any refresh took place, and with no refresh the last error passes through untouched |
| AuthGateway.NoRefreshAttempt | msmemagalang/src/contexts/AuthContext.tsx:63-67 | a 401 on a flagged request, or with no refresh token stored, is rejected at once with nothing more sent |
| AuthGateway.OtherRepliesPassThrough | msmemagalang/src/contexts/AuthContext.tsx:58-62 | every reply other than 401 reaches the caller unchanged |
| AuthGateway.RefreshThenRetry | msmemagalang/src/contexts/AuthContext.tsx:63-76 | a 401, then a delivered refresh, produces exactly three requests; the pair is stored before the retry, the retry carries the new token, and the retry's reply, whatever it is (a second 401 included), is the result |
| AuthGateway.RefreshThenRetryWire | msmemagalang/src/contexts/AuthContext.tsx:63-76 | after a 401, a delivered refresh and a reply to the retry, the wire holds the original, the refresh and the flagged retry (sent with the new storage) in that order, the new pair is stored, and the retry's reply is the caller's, a second 401 rejected as it came |
| AuthGateway.RefreshDelivered | msmemagalang/src/contexts/AuthContext.tsx:68-71 | a refresh POST answered with a pair goes out under the next id and delivers that pair |
| AuthGateway.RefreshFailureLogsOut | msmemagalang/src/contexts/AuthContext.tsx:77-82 | after a 401 carrying any message, a refresh failing with anything but 401 clears the keys, sends the browser to /login and rejects that original 401 |
| AuthSession.StoreCredentials | msmemagalang/src/contexts/AuthContext.tsx:127-131 | login writes the user record, the access token and the refresh token, and leaves every other key as it was |
| AuthSession.RegistrationRole | msmemagalang/src/contexts/AuthContext.tsx:140-152 | registration sends "MENTEE" when no role is given |
| AuthSession.LogoutIdempotent | msmemagalang/src/contexts/AuthContext.tsx:169-174 | logging out twice leaves the same storage as logging out once |
| AuthSession.ThrownMessage | msmemagalang/src/contexts/AuthContext.tsx:134-136 | a failed operation throws a non-empty message: the server's when there is one, else the fallback |
| AuthSession.Session.constructor | msmemagalang/src/contexts/AuthContext.tsx:93-94 | the provider starts with no user, loading, and nothing sent |
| AuthSession.Session.Send | msmemagalang/src/contexts/AuthContext.tsx:46-88 | sending through the client does exactly what Dispatch describes, and leaves the user untouched |
| AuthSession.Session.Recover | msmemagalang/src/contexts/AuthContext.tsx:64-86 | the recovery method does exactly what Recover describes |
| AuthSession.Session.Call | msmemagalang/src/contexts/AuthContext.tsx:46-88 | a call goes out under the next fresh id with no headers and no flag |
| AuthSession.Session.Logout | msmemagalang/src/contexts/AuthContext.tsx:169-174 | the three keys and the user are gone; nothing is sent |
| AuthSession.Session.Login | msmemagalang/src/contexts/AuthContext.tsx:124-138 | a delivered reply writes the credentials and signs the user in; a rejected one throws the server's message or "Login failed", writes nothing and keeps the user |
| AuthSession.Session.Register | msmemagalang/src/contexts/AuthContext.tsx:140-167 | the user is signed in only when the role is not MENTOR and the reply carries tokens; failures throw the server's text or "Registration failed" |
| AuthSession.Session.UpdateProfile | msmemagalang/src/contexts/AuthContext.tsx:176-189 | nothing happens without a user; otherwise the PUT result replaces the cached user, and a failure throws "Profile update failed" or the server's text |
| AuthSession.Session.InitAuth | msmemagalang/src/contexts/AuthContext.tsx:97-119 | without a stored token only the cached user record is removed and nothing is sent; otherwise /auth/me sets and caches the user or, on failure, clears the keys and the user; loading ends either way |
| SocketChannel.ConnectToken | msmemagalang/src/contexts/SocketContext.tsx:55-62 | a connection is opened exactly when the user is signed in, is not a mentor awaiting approval and has a non-empty stored token; it uses that token |
| SocketChannel.MessagesInConcat | msmemagalang/src/contexts/SocketContext.tsx:68-74 | the messages appended by a run of events are those of its parts, in order |
| SocketChannel.NoticesInConcat | msmemagalang/src/contexts/SocketContext.tsx:76-82 | the same for notifications |
| SocketChannel.OneNoticePerNotification | msmemagalang/src/contexts/SocketContext.tsx:76-82 | each new_notification event adds exactly one entry, and nothing else adds any |
| SocketChannel.EveryMessageKept | msmemagalang/src/contexts/SocketContext.tsx:68-74 | every message of new_message and message_sent events is kept |
| SocketChannel.QuietEvents | msmemagalang/src/contexts/SocketContext.tsx:64-66 | connect, disconnect and typing events change neither list |
| SocketChannel.Channel.constructor | msmemagalang/src/contexts/SocketContext.tsx:46-49 | no socket, no messages, no notifications |
| SocketChannel.Channel.UserChanged | msmemagalang/src/contexts/SocketContext.tsx:55-104 | the previous connection is disconnected; a new one is opened with ConnectToken's token or none at all; the lists are kept |
| SocketChannel.Channel.Handle | msmemagalang/src/contexts/SocketContext.tsx:64-96 | an event appends exactly what MessagesIn and NoticesIn say, and nothing else changes |
| SocketChannel.Channel.Send | msmemagalang/src/contexts/SocketContext.tsx:106-114 | send_message is emitted on the current socket, and only when there is one |
| SocketChannel.Channel.Join | msmemagalang/src/contexts/SocketContext.tsx:116-120 | join_room is emitted on the current socket, and only when there is one |
| SocketChannel.Channel.ClearNotifications | msmemagalang/src/contexts/SocketContext.tsx:122-124 | the notifications are emptied and the messages kept |
| NotificationHeader.MarkedRead | msmemagalang/src/components/Layout/Header.tsx:66-68 | the entries with the id become read; everything else is unchanged, in order |
| NotificationHeader.AllRead | msmemagalang/src/components/Layout/Header.tsx:78 | every entry becomes read and nothing else changes |
| NotificationHeader.MarkedReadUnread | msmemagalang/src/components/Layout/Header.tsx:63-73 | marking an id read lowers the unread count by exactly the unread entries with that id |
| NotificationHeader.AllReadNoneUnread | msmemagalang/src/components/Layout/Header.tsx:75-84 | after marking all read, none is unread |
| NotificationHeader.BadgeLabel | msmemagalang/src/components/Layout/Header.tsx:126-129 | a badge is drawn exactly for a positive total; it reads "99+" above 99 and the number otherwise |
| NotificationHeader.MarkAllOfferedWithBadge | msmemagalang/src/components/Layout/Header.tsx:139 | "Mark all read" is offered exactly when a badge is drawn |
| NotificationHeader.NotificationIcon | msmemagalang/src/components/Layout/Header.tsx:86-97 | success, warning and error have their own icons; every other kind gets the default |
| NotificationHeader.LiveEntries | msmemagalang/src/components/Layout/Header.tsx:164-179 | one feed entry per pushed notification, in order |
| NotificationHeader.DurableEntries | msmemagalang/src/components/Layout/Header.tsx:188-217 | one feed entry per stored notification, in order |
| NotificationHeader.LiveFirst | msmemagalang/src/components/Layout/Header.tsx:164-217 | pushed notifications come first, then stored ones; the feed is empty exactly when both lists are |
| NotificationHeader.CounterGrowth | msmemagalang/src/components/Layout/Header.tsx:36-40 | after k single pushes on a list of n, the counter has grown by k·n + k(k+1)/2 |
| NotificationHeader.PushesOvercount | msmemagalang/src/components/Layout/Header.tsx:36-99 | as written, k pushes on an empty live list raise the total by k + k(k+1)/2 |
| NotificationHeader.TwoPushesShowFive | msmemagalang/src/components/Layout/Header.tsx:36-99 | with nothing stored as unread, two pushes make the bell show 5 |
| NotificationHeader.CorrectedPushesCountOnce | msmemagalang/src/components/Layout/Header.tsx:99 | with the counter effect removed, each push raises the total by exactly one |
| NotificationHeader.Bell.constructor | msmemagalang/src/components/Layout/Header.tsx:21-22 | empty list, counter 0, no live notifications |
| NotificationHeader.Bell.FetchUnreadCount | msmemagalang/src/components/Layout/Header.tsx:54-61 | the server's count, or no change when the request fails |
| NotificationHeader.Bell.FetchNotifications | msmemagalang/src/components/Layout/Header.tsx:42-52 | the fetched list, or no change when the request fails |
| NotificationHeader.Bell.Push | msmemagalang/src/components/Layout/Header.tsx:36-40 | a push appends to the live list, and the counter effect adds the new list length |
| NotificationHeader.Bell.MarkAsRead | msmemagalang/src/components/Layout/Header.tsx:63-73 | when acknowledged, MarkedRead's list and the counter lowered by one, never below 0; otherwise nothing changes |
| NotificationHeader.Bell.MarkAllAsRead | msmemagalang/src/components/Layout/Header.tsx:75-84 | when acknowledged, everything is read, the counter is 0 and the live list is empty; otherwise nothing changes |
| NotificationHeader.Bell.Click | msmemagalang/src/components/Layout/Header.tsx:194 | clicking an entry marks it read only when it is unread |
| ChatPage.HasId | msmemagalang/src/pages/ChatPage.tsx:71 | some message of the list carries the id |
| ChatPage.Merged | msmemagalang/src/pages/ChatPage.tsx:69-74 | a message whose id is present changes nothing; any other message is appended |
| ChatPage.MergeIdempotent | msmemagalang/src/pages/ChatPage.tsx:69-74 | merging a message twice is merging it once |
| ChatPage.MergeKeepsIdsUnique | msmemagalang/src/pages/ChatPage.tsx:69-74 | merging keeps ids unique and leaves the message's id present |
| ChatPage.Payload | msmemagalang/src/pages/ChatPage.tsx:125-130 | the payload has the text and exactly one of groupId (for a group) and receiverId (otherwise) |
| ChatPage.Conversation.constructor | msmemagalang/src/pages/ChatPage.tsx:34-36 | no open chat, no messages, empty draft |
| ChatPage.Conversation.HandleNewMessage | msmemagalang/src/pages/ChatPage.tsx:61-77 | a message for the open chat is merged; anything else is ignored |
| ChatPage.Conversation.SendDraft | msmemagalang/src/pages/ChatPage.tsx:121-136 | a blank draft, or no open chat, changes nothing; otherwise the payload goes out and the draft empties |
| ChatPage.Conversation.Select | msmemagalang/src/pages/ChatPage.tsx:46-50 | clicking a chat in the list (line 177) opens it; a different chat's messages are requested and replace the list, while re-choosing the open chat changes nothing; the draft and outbox are kept |
| ChatPage.Conversation.FetchMessages | msmemagalang/src/pages/ChatPage.tsx:99-119 | the group or direct URL is requested, and the reply's list replaces the messages (empty on failure) |
| RouteGuardHook.RequiredRoles | msmemagalang/src/hooks/useRouteGuard.ts:9-32 | every entry of the permission table names at least one role |
| RouteGuardHook.Entry | msmemagalang/src/hooks/useRouteGuard.ts:45 | a path has an entry exactly when it is a page's path, and the entry is that page's roles |
| RouteGuardHook.Word | msmemagalang/src/hooks/useRouteGuard.ts:54 | the text up to the first slash is a slash-free prefix |
| RouteGuardHook.Segments | msmemagalang/src/hooks/useRouteGuard.ts:54 | the segments are non-empty and slash-free |
| RouteGuardHook.WordUpToSlash | msmemagalang/src/hooks/useRouteGuard.ts:54 | a word stops at the first slash |
| RouteGuardHook.SegmentsOfWord | msmemagalang/src/hooks/useRouteGuard.ts:54 | a leading "/w" contributes exactly the segment w |
| RouteGuardHook.RootHasNoSegments | msmemagalang/src/hooks/useRouteGuard.ts:54 | "/" has no segments |
| RouteGuardHook.SegmentsOfPlainWord | msmemagalang/src/hooks/useRouteGuard.ts:54 | a slash-free word is its own single segment |
| RouteGuardHook.ParentPath | msmemagalang/src/hooks/useRouteGuard.ts:56-57 | a parent is "/" plus one slash-free segment |
| RouteGuardHook.ParentOfNested | msmemagalang/src/hooks/useRouteGuard.ts:54-57 | "/w/tail", with a non-empty segment in the tail, has parent "/w" |
| RouteGuardHook.ParentOfPage | msmemagalang/src/hooks/useRouteGuard.ts:54-64 | only the two nested pages have a parent: /mentor and /mentee |
| RouteGuardHook.FlatPageHasNoParent | msmemagalang/src/hooks/useRouteGuard.ts:54-57 | a page path with no inner "/" has no parent |
| RouteGuardHook.GuardEffect | msmemagalang/src/hooks/useRouteGuard.ts:39-82 | nothing while loading or signed out; /unauthorized when the exact or the parent entry excludes the role; the role's dashboard from "/"; no other navigation |
| RouteGuardHook.PathsFor | msmemagalang/src/hooks/useRouteGuard.ts:94-96 | at most one path per key |
| RouteGuardHook.PathsForMembers | msmemagalang/src/hooks/useRouteGuard.ts:94-96 | every listed path is the path of a key whose roles include the role, and every such key's path is listed |
| RouteGuardHook.PathsForConcat | msmemagalang/src/hooks/useRouteGuard.ts:94-96 | the filter distributes over concatenation, so the paths come in key order |
| RouteGuardHook.PathsForNoDuplicates | msmemagalang/src/hooks/useRouteGuard.ts:94-96 | distinct keys give a list without repeated paths |
| RouteGuardHook.PermissionKeysDistinct | msmemagalang/src/hooks/useRouteGuard.ts:9-32 | the table's keys are distinct |
| RouteGuardHook.EveryPageIsAKey | msmemagalang/src/hooks/useRouteGuard.ts:9-32 | every page has an entry in the table |
| RouteGuardHook.AccessibleRoutes | msmemagalang/src/hooks/useRouteGuard.ts:91-97 | empty when signed out; every route listed passes hasAccess |
| RouteGuardHook.AccessibleRoutesExact | msmemagalang/src/hooks/useRouteGuard.ts:91-97 | a page is listed exactly when its entry names the user's role |
| RouteGuardHook.HasAccessWithParentMatchesGuard | msmemagalang/src/hooks/useRouteGuard.ts:39-64 | away from "/", the corrected access test holds exactly when the effect leaves the user where they are |
| RouteGuardHook.HasAccessIgnoresParent | msmemagalang/src/hooks/useRouteGuard.ts:84-89 | as written, below a top-level page that excludes the role, hasAccess says yes while the effect redirects |
| RouteGuardHook.MenteeNestedSessionsPath | msmemagalang/src/hooks/useRouteGuard.ts:84-89 | the concrete case: a mentee and "/sessions/new" |
| AppRoutes.ProtectedRoute | msmemagalang/src/App.tsx:55-129 | in order: spinner while loading, /login when signed out, the verification and approval notices, /unauthorized when the roles exclude the user's role, else the page |
| AppRoutes.AccessibleRoutes | msmemagalang/src/App.tsx:132-149 | the fixed per-role lists; empty for any other role |
| AppRoutes.AnyAdmits | msmemagalang/src/App.tsx:163-165 | true exactly when some route admits the path |
| AppRoutes.RouteGuard | msmemagalang/src/App.tsx:152-172 | /login when signed out; the page when some route of the role admits the path; /unauthorized otherwise |
| AppRoutes.PrefixNeedsSeparator | msmemagalang/src/App.tsx:163-165 | a route extends only across a '/' boundary |
| AppRoutes.Dashboard | msmemagalang/src/App.tsx:177-190 | one of four paths; /login exactly when signed out or of an unknown role |
| AppRoutes.Route | msmemagalang/src/App.tsx:195-312 | a location never shows raw children; unknown locations redirect to "/" |
| AppRoutes.RouteOfPage | msmemagalang/src/App.tsx:200-312 | a page's location renders the layout around that page's own element |
| AppRoutes.PublicPagesRedirectSignedIn | msmemagalang/src/App.tsx:195-196 | /login and /register send a signed-in user to the dashboard |
| AppRoutes.AwaitingAccountSeesNotice | msmemagalang/src/App.tsx:74-121 | an unverified mentee or pending mentor sees a notice on every page and at "/" |
| AppRoutes.GuardAgreesWithRolesProp | msmemagalang/src/App.tsx:152-307 | for the known roles, the route lists admit a page exactly when that page's roles prop allows the role |
| AppRoutes.SlashPrefixOfPage | msmemagalang/src/App.tsx:232-261 | only /mentor and /mentee are extended by another page across a '/' |
| AppRoutes.NotBelowAnotherRole | msmemagalang/src/App.tsx:132-149 | no route of a role extends a page the role may not open |
| AppRoutes.UnknownRoleDeniedEverywhere | msmemagalang/src/App.tsx:152-190 | an unknown role is denied everywhere, and its dashboard is /login |
| Sidebar.NavigationItems | src/components/Layout/Sidebar.tsx:20-166 | empty when signed out or for an unknown role; every item lists exactly the user's role |
| Sidebar.VisibleItems | src/components/Layout/Sidebar.tsx:169-204 | nothing renders when signed out; otherwise every item renders |
| Sidebar.ActiveItems | src/components/Layout/Sidebar.tsx:206 | an item is active exactly when its href equals the pathname |
| Sidebar.MenusHaveDistinctLinks | src/components/Layout/Sidebar.tsx:24-160 | no menu links to the same page twice |
| Sidebar.AtMostOneActive | src/components/Layout/Sidebar.tsx:206 | with distinct links, at most one item is active |
| Sidebar.MenteeMenuScope | src/components/Layout/Sidebar.tsx:122-160 | the mentee menu offers no session, administrator or mentor page |
| AccessAgreement.RouteListsMatchPermissionTable | msmemagalang/src/App.tsx:132-149 | for the known roles, the App's route lists and the hook's table name the same pages |
| AccessAgreement.RouteEntryPermitted | msmemagalang/src/App.tsx:132-149 | every entry of a role's route list is the path of a page the table admits for that role |
| AccessAgreement.RouteIndex | msmemagalang/src/App.tsx:132-149 | where a page the table admits sits in the role's route list |
| AccessAgreement.RolesPropMatchesPermissionTable | msmemagalang/src/App.tsx:209-307 | where a page's route gives roles, they are the table's; elsewhere the table names all three roles |
| AccessAgreement.RouteShowsPermittedPages | msmemagalang/src/App.tsx:200-312 | for a user in good standing, a page shows exactly when the table allows it; otherwise the location redirects to /unauthorized |
| AccessAgreement.ExactEntryOfPage | msmemagalang/src/hooks/useRouteGuard.ts:45-51 | the exact entry excludes a role exactly when the table does |
| AccessAgreement.ParentCheckAgreesOnPages | msmemagalang/src/hooks/useRouteGuard.ts:54-64 | on page paths, the parent check adds nothing to the exact check |
| AccessAgreement.GuardEffectMatchesTable | msmemagalang/src/hooks/useRouteGuard.ts:39-82 | the effect leaves a user on a page exactly when the table allows it |
| AccessAgreement.MenuLinksPermitted | src/components/Layout/Sidebar.tsx:24-160 | every item of a role's menu links to a page the table admits for the role, never to the video call |
| AccessAgreement.PermittedPagePassesGuard | msmemagalang/src/App.tsx:132-172 | a page the table admits for a known role passes the route tree's guard |
| AccessAgreement.NoOrphanLinks | src/components/Layout/Sidebar.tsx:24-160 | every sidebar link passes the route guard, the table, the accessible-route list and the effect |
| AccessAgreement.SidebarLinksOpen | src/components/Layout/Sidebar.tsx:209-211 | for a user in good standing, every link opens its page |
| AccessAgreement.MenuIndex | src/components/Layout/Sidebar.tsx:24-160 | where a permitted page sits in the role's menu |
| AccessAgreement.MenuCoversPermittedPages | src/components/Layout/Sidebar.tsx:24-160 | the menu links to every permitted page except the video call, and to nothing else |
| AccessAgreement.DashboardsAgree | msmemagalang/src/hooks/useRouteGuard.ts:67-81 | for the known roles, the hook's redirect from "/" and getDashboard agree on a page the role may open |
| AccessAgreement.UnknownRoleDashboards | msmemagalang/src/hooks/useRouteGuard.ts:78-79 | for other roles they disagree: /unauthorized against /login |
| Sessions.ParticipantIds | msmemagalang/src/components/Sessions/EditSessionModal.tsx:66 | the ids of the session's mentees, in order |
| Sessions.OnDay | msmemagalang/src/pages/SessionsPage.tsx:109-114 | exactly the sessions whose start falls on that day |
| Sessions.OnDayConcat | msmemagalang/src/pages/SessionsPage.tsx:109-114 | the day filter keeps the list's order |
| Sessions.ReplaceFirstUnderscore | msmemagalang/src/components/Sessions/SessionCard.tsx:90 | the label has the status name's length |
| Sessions.FirstUnderscoreReplaced | msmemagalang/src/components/Sessions/SessionCard.tsx:90 | every character but an underscore is kept; an underscore becomes a space exactly when no underscore comes before it |
| Sessions.InProgressLabel | msmemagalang/src/components/Sessions/SessionCard.tsx:90 | IN_PROGRESS is shown as "IN PROGRESS" |
| Sessions.FirstUnderscoreOnly | msmemagalang/src/components/Sessions/SessionCard.tsx:90 | for a text `a_b` whose `a` holds no underscore the label is `a b`: only the first underscore becomes a space and later ones are kept ("NO_SHOW_UP" shows as "NO SHOW_UP") |
| Sessions.StatusTone | msmemagalang/src/components/Sessions/SessionCard.tsx:42-55 | blue, yellow, green and red for the four statuses; gray for every other |
| Sessions.ClassesDistinct | msmemagalang/src/components/Sessions/SessionCard.tsx:42-55 | different tones give different badge and bordered classes |
| MenteePicker.Matching | src/components/Sessions/CreateSessionModal.tsx:138-143 | exactly the candidates whose name or e-mail contains the term, ignoring case |
| MenteePicker.EmptyTermKeepsAll | src/components/Sessions/CreateSessionModal.tsx:138-143 | an empty search lists every candidate, in order |
| MenteePicker.MatchingConcat | src/components/Sessions/CreateSessionModal.tsx:138-143 | the search keeps the list's order |
| MenteePicker.Ids | src/components/Sessions/CreateSessionModal.tsx:126 | the candidates' ids, in order |
| MenteePicker.Toggled | src/components/Sessions/CreateSessionModal.tsx:114-121 | the id ends up selected exactly when it was not; other ids are kept |
| MenteePicker.ToggleTwiceUnselected | src/components/Sessions/CreateSessionModal.tsx:114-121 | toggling an unselected id twice restores the selection |
| MenteePicker.ToggleTwiceSelected | src/components/Sessions/CreateSessionModal.tsx:114-121 | toggling a selected id twice keeps the same set but moves the id to the end |
| MenteePicker.ToggleKeepsNoDuplicates | src/components/Sessions/CreateSessionModal.tsx:114-121 | toggling never duplicates an id |
| MenteePicker.SelectAllOnlyMatches | src/components/Sessions/CreateSessionModal.tsx:123-129 | "select all" selects exactly the ids of the candidates the search matches |
| CreateSession.Rejection | src/components/Sessions/CreateSessionModal.tsx:66-91 | the message of the first failed check, in the handler's order, or none when every check passes |
| CreateSession.CreateModal.constructor | src/components/Sessions/CreateSessionModal.tsx:23-34 | the blank form, no mentees, no error |
| CreateSession.CreateModal.Open | src/components/Sessions/CreateSessionModal.tsx:36-64 | opening resets form, error and search, and lists the fetched mentees; a failed fetch leaves its message |
| CreateSession.CreateModal.Fill | src/components/Sessions/CreateSessionModal.tsx:187-233 | the inputs set their fields and keep the selection |
| CreateSession.CreateModal.Search | src/components/Sessions/CreateSessionModal.tsx:263 | the search term changes and nothing else |
| CreateSession.CreateModal.Submit | src/components/Sessions/CreateSessionModal.tsx:66-112 | a failed check shows its message and posts nothing; otherwise the form is posted, a success resets it, and a failure keeps it and shows the server's message or the fallback |
| CreateSession.CreateModal.Toggle | src/components/Sessions/CreateSessionModal.tsx:114-121 | the selection becomes Toggled's |
| CreateSession.CreateModal.SelectAllMatching | src/components/Sessions/CreateSessionModal.tsx:123-129 | the selection becomes the ids of the matching candidates |
| CreateSession.CreateModal.DeselectAll | src/components/Sessions/CreateSessionModal.tsx:131-136 | the selection empties, and the submit button is then disabled (the button's `disabled` test is at line 355) |
| CreateSession.OpenedIsDisabled | src/components/Sessions/CreateSessionModal.tsx:36-49 | a just-opened modal cannot be submitted (the button's `disabled` test is at line 355) |
| EditSession.FormOf | msmemagalang/src/components/Sessions/EditSessionModal.tsx:55-75 | the form copies the session: an empty description when it has none, the formatted date, and the mentee ids in order |
| EditSession.Rejection | msmemagalang/src/components/Sessions/EditSessionModal.tsx:95-113 | the first failed check; the date must lie in the future only for a scheduled session |
| EditSession.PastDateAllowedUnlessScheduled | msmemagalang/src/components/Sessions/EditSessionModal.tsx:106-113 | a session that is not scheduled may keep a past date |
| EditSession.PayloadOf | msmemagalang/src/components/Sessions/EditSessionModal.tsx:119-125 | the PUT body carries every form field but the mentee ids |
| EditSession.PayloadIgnoresMentees | msmemagalang/src/components/Sessions/EditSessionModal.tsx:119-125 | the body does not depend on the mentee selection |
| EditSession.StatusColors | msmemagalang/src/components/Sessions/EditSessionModal.tsx:153-166 | four distinct colours for the four statuses, gray for every other |
| EditSession.EditModal.constructor | msmemagalang/src/components/Sessions/EditSessionModal.tsx:40-53 | the initial form, no error |
| EditSession.EditModal.Sync | msmemagalang/src/components/Sessions/EditSessionModal.tsx:55-88 | open and given a session, the form is FormOf the session and error and search are cleared; the mentees are fetched only while the selection panel shows |
| EditSession.EditModal.Fill | msmemagalang/src/components/Sessions/EditSessionModal.tsx:168-170 | the date is kept unless the status allows editing it (the input's `disabled` test is at line 261) |
| EditSession.EditModal.Submit | msmemagalang/src/components/Sessions/EditSessionModal.tsx:90-135 | nothing without a session; a failed check shows its message; otherwise the payload is PUT to /api/sessions/id, a failure shows the server's text or the fallback, and the form is never reset |
| EditSession.EditModal.Toggle | msmemagalang/src/components/Sessions/EditSessionModal.tsx:137-144 | the selection becomes Toggled's |
| SessionCard.ExactlyOneOfEditView | msmemagalang/src/components/Sessions/SessionCard.tsx:77-78 | every viewer may either edit or view, never both; mentees, unknown roles and a missing user view |
| SessionCard.MenuActions | msmemagalang/src/components/Sessions/SessionCard.tsx:111-150 | "View details" only for viewers given a handler; edit and delete only for editors |
| SessionCard.Transitions | msmemagalang/src/components/Sessions/SessionCard.tsx:201-222 | at most one button, none for viewers, and it always advances the lifecycle |
| SessionCard.TransitionsOffered | msmemagalang/src/components/Sessions/SessionCard.tsx:201-222 | an editor sees Start while scheduled, Complete while in progress, and nothing afterwards |
| SessionCard.LifecycleEndsCompleted | msmemagalang/src/components/Sessions/SessionCard.tsx:201-222 | two buttons take a scheduled session to completed, after which none is offered |
| SessionCard.CountLabel | msmemagalang/src/components/Sessions/SessionCard.tsx:182 | "mentee" exactly for 1, "mentees" otherwise |
| SessionCard.FirstNames | msmemagalang/src/components/Sessions/SessionCard.tsx:195 | the first k names, in order |
| SessionCard.MenteeSummary | msmemagalang/src/components/Sessions/SessionCard.tsx:192-198 | hidden without mentees; the first three names in order, and the rest counted, so every mentee is named or counted |
| SessionCard.CardIcon | msmemagalang/src/components/Sessions/SessionCard.tsx:57-66 | only in-progress and completed sessions carry an icon, each its own |
| SessionsPage.Filtered | msmemagalang/src/pages/SessionsPage.tsx:92-98 | exactly the sessions whose title, description or mentor name contains the term and whose status passes the filter |
| SessionsPage.NoFilterKeepsAll | msmemagalang/src/pages/SessionsPage.tsx:92-98 | with no term and no status, every session is listed in order |
| SessionsPage.FilteredConcat | msmemagalang/src/pages/SessionsPage.tsx:92-98 | the filter keeps the list's order |
| SessionsPage.RemoveId | msmemagalang/src/pages/SessionsPage.tsx:75 | exactly the sessions with another id remain |
| SessionsPage.RemoveIdConcat | msmemagalang/src/pages/SessionsPage.tsx:75 | removal keeps the order of the rest |
| SessionsPage.RemoveAbsentId | msmemagalang/src/pages/SessionsPage.tsx:75 | removing an id no session has changes nothing |
| SessionsPage.WithStatus | msmemagalang/src/pages/SessionsPage.tsx:84-86 | the sessions with the id take the new status; the others are unchanged, in place |
| SessionsPage.WithStatusTwice | msmemagalang/src/pages/SessionsPage.tsx:81-90 | setting a status twice is setting the second |
| SessionsPage.ChipColor | msmemagalang/src/pages/SessionsPage.tsx:157-160 | scheduled and every unknown status share the blue chip |
| SessionsPage.ChipColorsDistinct | msmemagalang/src/pages/SessionsPage.tsx:157-160 | the four statuses have four different chips |
| SessionsPage.CreatorsAreEditors | msmemagalang/src/pages/SessionsPage.tsx:295 | "Create Session" is offered exactly to those who may edit a card |
| SessionsPage.CalendarCells | msmemagalang/src/pages/SessionsPage.tsx:128-172 | one blank per weekday before the 1st, then one cell per day listing exactly that day's sessions |
| SessionsPage.Board.constructor | msmemagalang/src/pages/SessionsPage.tsx:32-39 | no sessions, loading, no filters |
| SessionsPage.Board.Fetch | msmemagalang/src/pages/SessionsPage.tsx:47-56 | the fetched list, or the old list on failure; loading ends |
| SessionsPage.Board.Delete | msmemagalang/src/pages/SessionsPage.tsx:68-79 | nothing without the confirm; otherwise the DELETE goes out, and a success removes the sessions with the id |
| SessionsPage.Board.ChangeStatus | msmemagalang/src/pages/SessionsPage.tsx:81-90 | the PUT goes out, and a success sets the status of the sessions with the id |
| SessionsPage.Board.MonthView | msmemagalang/src/pages/SessionsPage.tsx:128-172 | every day cell lists exactly the sessions that pass the filters and fall on that day |
| CalendarPage.DaysInMonth | src/pages/CalendarPage.tsx:48-69 | the month's list: lead gaps, then days 1 to n in order |
| CalendarPage.MonthDaysOrdered | src/pages/CalendarPage.tsx:48-69 | in that list, gaps come only before the days, and day numbers climb strictly within 1..n |
| CalendarPage.MonthDaysEnds | src/pages/CalendarPage.tsx:64-66 | the first day is the 1st and the last the n-th |
| CalendarPage.DayCell | src/pages/CalendarPage.tsx:203-216 | at most two chips, the first of that day's sessions; "+k more" counts the rest |
| CalendarPage.StatusColors | src/pages/CalendarPage.tsx:90-103 | four distinct colours, gray for every other status |
| CalendarPage.SchedulersAreEditors | src/pages/CalendarPage.tsx:132 | "Schedule Session" is offered exactly to editors |
| SessionDetails.JsRem60 | src/components/Sessions/SessionDetailsModal.tsx:142 | JavaScript's remainder by 60: it has the dividend's sign |
| SessionDetails.HoursMinutes | src/components/Sessions/SessionDetailsModal.tsx:142 | for a non-negative duration, hours and minutes add back to it, with minutes below 60 |
| SessionDetails.NegativeDurationParts | src/components/Sessions/SessionDetailsModal.tsx:142 | a duration of -5 shows as -1 h -5 min, which does not add back up |
| SessionDetails.EndTime | src/components/Sessions/SessionDetailsModal.tsx:212 | the end lies duration minutes after the start, and later for a positive duration |
| SessionDetails.StatusIcon | src/components/Sessions/SessionDetailsModal.tsx:51-62 | one icon each for in progress, completed and cancelled; the calendar icon otherwise |
| SessionDetails.StatusColors | src/components/Sessions/SessionDetailsModal.tsx:36-49 | four distinct colours, gray for every other status |
| MenteeDashboard.Upcoming | msmemagalang/src/pages/dashboards/MenteeDashboard.tsx:48-53 | exactly the sessions starting later than now that are scheduled or in progress |
| MenteeDashboard.FinishedNeverUpcoming | msmemagalang/src/pages/dashboards/MenteeDashboard.tsx:48-53 | completed and cancelled sessions are never upcoming |
| MenteeDashboard.UpcomingConcat | msmemagalang/src/pages/dashboards/MenteeDashboard.tsx:48-53 | the filter keeps the list's order |
| MenteeDashboard.Listed | msmemagalang/src/pages/dashboards/MenteeDashboard.tsx:250 | the first three, in order |
| MenteeDashboard.UpcomingPanel | msmemagalang/src/pages/dashboards/MenteeDashboard.tsx:243-291 | the empty state exactly without upcoming sessions; otherwise the first three, with "View all (n)" exactly when there are more |
| MenteeDashboard.ViewAllOnlyWhenTruncated | msmemagalang/src/pages/dashboards/MenteeDashboard.tsx:283-291 | "View all" appears only when some upcoming sessions are hidden |
| MenteeDashboard.BadgeToneMatchesStatus | msmemagalang/src/pages/dashboards/MenteeDashboard.tsx:272-277 | the badge of an upcoming session has its status's tone |
| MenteeDashboard.ChartData | msmemagalang/src/pages/dashboards/MenteeDashboard.tsx:107-110 | one point per record, captioned "month/year", and none without records |
| MenteeDashboard.Points | msmemagalang/src/pages/dashboards/MenteeDashboard.tsx:107-110 | one point per record, in order, with its revenue |
| MenteeDashboard.CardValues | msmemagalang/src/pages/dashboards/MenteeDashboard.tsx:79-104 | four card values, each 0 when stats or the field is missing |
| MenteesPage.ProgressColor | src/pages/MenteesPage.tsx:66-71 | green from 80, yellow from 60, orange from 40, red below |
| MenteesPage.ProgressColorMonotone | src/pages/MenteesPage.tsx:66-71 | more progress never gets a lower band |
| MenteesPage.Matching | src/pages/MenteesPage.tsx:61-64 | exactly the mentees whose name or e-mail contains the term, ignoring case |
| MenteesPage.MatchingConcat | src/pages/MenteesPage.tsx:61-64 | the search keeps the list's order |
| MenteesPage.TotalSessionsConcat | src/pages/MenteesPage.tsx:133 | the session total of a joined list is the sum of the parts' totals |
| MenteesPage.TotalSessionsAtLeastCount | src/pages/MenteesPage.tsx:133 | when every mentee has a session, the total is at least the number of mentees |
| MenteesPage.ActiveThisWeek | src/pages/MenteesPage.tsx:147-149 | the count of mentees active in the last week is at most the number of mentees |
| MenteesPage.ProgressSumBounds | src/pages/MenteesPage.tsx:119 | percentages sum to between 0 and 100 per mentee |
| MenteesPage.AverageProgress | src/pages/MenteesPage.tsx:119 | 0 without mentees |
| MenteesPage.AverageWithinScale | src/pages/MenteesPage.tsx:119 | the rounded average of percentages is itself a percentage |
| MenteesPage.ProgressLinkFallsThrough | src/pages/MenteesPage.tsx:56-58 | the "progress" link leads to no route of the application, so the router sends it to "/" |
| ResourcesPage.Filtered | msmemagalang/src/pages/ResourcesPage.tsx:157-162 | exactly the resources whose title or description contains the term and whose category passes the filter |
| ResourcesPage.FilteredConcat | msmemagalang/src/pages/ResourcesPage.tsx:157-162 | the filter keeps the list's order |
| ResourcesPage.NoFilterKeepsAll | msmemagalang/src/pages/ResourcesPage.tsx:157-162 | with no term and no category, every resource is listed in order |
| ResourcesPage.OnlyAdminOrUploader | msmemagalang/src/pages/ResourcesPage.tsx:193-195 | anyone but an administrator may edit or delete only what they uploaded |
| ResourcesPage.Extension | msmemagalang/src/pages/ResourcesPage.tsx:165 | the extension has no dot, and a name without a dot is its own extension |
| ResourcesPage.ExtensionIsSuffix | msmemagalang/src/pages/ResourcesPage.tsx:165 | the extension is a suffix of the name |
| ResourcesPage.ExtensionAfterDot | msmemagalang/src/pages/ResourcesPage.tsx:165 | the extension is what follows the last dot, whatever precedes it |
| ResourcesPage.UpperCaseExtension | msmemagalang/src/pages/ResourcesPage.tsx:164-183 | "Report.PDF" gets the document icon |
| ResourcesPage.EarlierDotsIgnored | msmemagalang/src/pages/ResourcesPage.tsx:164-183 | only the last extension counts: "clip.v2.mov" is a video, "photo.png.txt" has the default icon |
| ResourcesPage.DotlessNameIsItsOwnExtension | msmemagalang/src/pages/ResourcesPage.tsx:164-183 | a dotless name is classified as if it were its own extension |
| ResourcesPage.Replaced | msmemagalang/src/pages/ResourcesPage.tsx:119-121 | the entries with the id become the reply; the others stay in place |
| ResourcesPage.RemoveId | msmemagalang/src/pages/ResourcesPage.tsx:140 | exactly the resources with another id remain |
| ResourcesPage.RemoveIdConcat | msmemagalang/src/pages/ResourcesPage.tsx:140 | removal keeps the order of the rest |
| ResourcesPage.EditFormOf | msmemagalang/src/pages/ResourcesPage.tsx:146-155 | the form copies title and category, uses an empty description when there is none, and holds no file |
| ResourcesPage.Library.constructor | msmemagalang/src/pages/ResourcesPage.tsx:23-47 | empty lists, loading, empty forms |
| ResourcesPage.Library.Fetch | msmemagalang/src/pages/ResourcesPage.tsx:49-72 | the fetched resources and categories, each kept when its request fails; loading ends |
| ResourcesPage.Library.Upload | msmemagalang/src/pages/ResourcesPage.tsx:74-99 | nothing without a file; otherwise the POST goes out, and a success puts the new resource first, closes the modal, resets the form and reloads the categories |
| ResourcesPage.Library.OpenEdit | msmemagalang/src/pages/ResourcesPage.tsx:146-155 | the resource is selected, the form is EditFormOf it, and the modal opens |
| ResourcesPage.Library.Edit | msmemagalang/src/pages/ResourcesPage.tsx:101-131 | nothing without a selection; otherwise the PUT carries a file only when one was picked, and a success replaces the entry, clears the selection and resets the form |
| ResourcesPage.Library.Delete | msmemagalang/src/pages/ResourcesPage.tsx:133-144 | nothing without the confirm; otherwise the DELETE goes out, and a success removes the id |
| Announcements.RemoveId | src/pages/AnnouncementsPage.tsx:59 | exactly the announcements with another id remain |
| Announcements.RemoveIdConcat | src/pages/AnnouncementsPage.tsx:59 | deletion keeps the others in order |
| Announcements.RemoveIdTwice | src/pages/AnnouncementsPage.tsx:56-63 | deleting an id twice is deleting it once |
| Announcements.CreateThenDelete | src/pages/AnnouncementsPage.tsx:44-63 | deleting a just-created announcement, whose id is new, restores the list |
| Announcements.RoleColors | src/pages/AnnouncementsPage.tsx:65-76 | each role its own colour, gray for any other value |
| Announcements.Board.constructor | src/pages/AnnouncementsPage.tsx:20-27 | no announcements, loading, the draft empty with target MENTEE |
| Announcements.Board.Fetch | src/pages/AnnouncementsPage.tsx:33-42 | the fetched list, or the old one on failure; loading ends |
| Announcements.Board.Create | src/pages/AnnouncementsPage.tsx:44-54 | the draft is POSTed; a success puts the reply first, resets the draft and closes the modal; a failure changes nothing |
| Announcements.Board.Delete | src/pages/AnnouncementsPage.tsx:56-63 | the DELETE goes out; a success removes exactly the entries with that id; a failure changes nothing |

## Left out

- Network, storage, sockets, clocks and dialogs are not executed. Their results are the parameters named above.
- Time zones and calendar arithmetic are inputs: the local day of a date, the weekday of the 1st, the number of days in a month, and the parsing of a date text.
- Date and number formatting (`toLocaleDateString`, `toLocaleTimeString`, `toISOString`) is left out; the edit modal's formatted date is an input.
- `formatFileSize` is left out, because it works in floating point.
- String escaping in `JSON.stringify` of the cached user is left out.
- Replies of shapes other than those modelled (a missing `data`, a non-list) are left out.
- Concurrency is left out: every handler runs to completion, one at a time, in the order called.
- The socket state is not reset to null on cleanup, and the messages and notifications are not reset when the user changes. The model keeps both as the code does.
- `AppRoutes.Route` matches locations exactly, with no URL decoding, query strings or trailing slashes.
- The hard reload to /login after a failed refresh is modelled as the browser location only.
- Roles other than the three known ones are one `OtherRole` value.
- ChatPage listens only for `new_message`, so the model ignores `message_sent` on that page.
- The chat user list (`fetchChatUsers`) is left out, since it is only a fetch into a list.
- The query strings of the mentees page's chat and video-call links are left out.
- `isToday` highlighting, month navigation and the calendar's selected-date panel are left out.
- The mock data built with `Math.random` in the dashboards is left out.
- The context files VideoCallPage, MentorsPage, MentorDashboard, EmailVerificationPage and RoleSwitcher are not part of this model.
- MenteesPage.AverageProgress: `Math.round` on a floating-point mean is modelled as rounding half up on integers. It agrees for percentages, where no tie rounds differently.
- MenteeDashboard.CardValues: `value || 0` is modelled as "0 when missing". A stored 0 gives 0 either way.
- MenteesPage.ActiveThisWeek: only the upper bound is stated; the count is defined by `ActiveSince`.
- AuthGateway.Dispatch: its own contract states only how the wire grows. The retry, refresh and logout behaviour is stated in the lemmas listed above.
- Common.Lower: only the ASCII letters A-Z are lower-cased; `toLowerCase` also folds other letters, which the model compares as they are. This affects the search filters `MenteePicker.Matching`, `MenteesPage.Matching`, `SessionsPage.Filtered` and `ResourcesPage.Filtered`.
- An invalid date text parses to `None`. JavaScript's `Invalid Date` compares false with `<=`, so such a date passes the "future" check; the model does the same (`NotInFuture` is false).

## Findings

| source | as written | input that shows it | evidently intended | confidence | as-written member | corrected member |
|---|---|---|---|---|---|---|
| msmemagalang/src/components/Layout/Header.tsx:36-99 | each change of the live list adds its whole length to the counter, and the total adds the length again | no stored unread notifications and two pushes: the bell shows 5 | each pushed notification counts once: the total is the stored unread count plus the live list | not executed | NotificationHeader.TwoPushesShowFive | NotificationHeader.CorrectedPushesCountOnce |
| msmemagalang/src/hooks/useRouteGuard.ts:84-89 | `hasAccess` checks only the exact entry, while the effect also checks the parent entry | a mentee and "/sessions/new": hasAccess is true, but the effect redirects to /unauthorized | `hasAccess` applies the same test as the effect | not executed | RouteGuardHook.HasAccessIgnoresParent | RouteGuardHook.HasAccessWithParent |

The notification bell class (`NotificationHeader.Bell`) follows the code as written.

Where the system description and the code differ, the model follows the code:

- the bell counts pushed notifications more than once (first finding above);
- the refresh POST goes through the same response interceptor, so a 401 on a refresh starts another refresh (`AuthGateway.RefreshChain`); retry-once holds per request, not per chain;
- nothing resets the received messages when the user changes.
