# live-delphi core, modelled in Dafny

live-delphi runs real-time Delphi queries. Participants join a query and place
a point on a 2D scale (x and y from 0 to 6). They may also write comments and
reply to them. Other pages show the answers and comments live, replay a
finished query, and export or report the data.

This project models the deterministic core of that system:

- **Server WebSocket dispatcher** (`WsMessages`): routing on the message type
  string, the handlers' replies, store writes and bus events.
- **Browser connection widget** (`LiveDelphiClient`) and its older copy
  (`LegacyClient`): a connection state plus a queue of pending messages,
  drained in order when the socket opens.
- **Live pages**:
  - the chart's participant series (`LiveChart`);
  - the two replay controllers (`FinishedQueryPlayback`,
    `FinishedQueryCommentPlayback`);
  - the live comment board (`LiveQueryComments`).
- **Colour helper** (`QueryUtils`): the clamped range conversion and the
  colour-channel choice. Four copies of `convertToRange` are modelled by
  `QueryUtils.ConvertToRange`:
  - `client-src/js/live-delphi-chart.js:99-110`;
  - `client-src/js/finished-query-comment-playback.js:203-214`;
  - `client-src/js/live-query-comments.js:105-117`;
  - `plugins/live-delphi-charts/index.js:36-59`.
- **Server-side data shaping**:
  - the three spreadsheet exports (`DataExport`);
  - the comment report's quadrant segments, the query listing, record
    creation and joining (`Routes`);
  - the 2D analysis and its record classes (`Analysis`, `QueryScale2dEntry`,
    `QueryScale2dData`, `QueryScale2dAnalysis`);
  - the chart datasets (`ChartsPlugin`).
- **Access-control helpers** (`AccessControl`).
- **User-management helpers** (`UserManagement`).
- **Command-line options** (`CliOptions`).

### How the model is built

- **Collaborators are parameters or interfaces.**
  - SHA-256 is a function parameter `hash`. The clock is a parameter `now`.
  - The database store is an abstract map of records plus an interface of
    function-valued queries.
  - Keycloak's answers are parameters.
  - The message bus, the messages sent to a client, and the log are
    append-only lists.
- **Objects whose fields the source updates become classes.** The widgets,
  the dispatcher and the client cache are Dafny classes. Each has a `Valid()`
  invariant, and each method states the whole new state.
- **Pure transformations become functions.** Each is paired with lemmas
  relating it to an independent specification: inverse, invariant, or
  reference definition.
- **Loops become methods.** Each loop of the source is a method proved equal
  to a specification function.

### Where the model deliberately differs from a loose reading of the code

- **Two quadrant rules.** The client quadrant rule is `x <= 3` and the server
  rule is `x > 3.5`. Both are modelled as written, and
  `FinishedQueryCommentPlayback.ClientAndServerQuadrantsDiffer` shows a point
  on which they disagree.
- **Message types the server does not route.** Three types that clients send
  are not in the server's dispatch table: `find-answers-by-time`,
  `join-query` and `list-root-comments-by-query`. The model routes them to
  the unknown-type branch, as the code does (`WsMessages.ClientTypesNotRouted`).

## Model

| member | source | states |
|---|---|---|
| Base.NatToString | plugins/live-delphi-ws-messages/index.js:244 | the rendering of an id is a non-empty string of decimal digits, without a leading zero, whose value is the id |
| Base.NatToStringInjective | plugins/live-delphi-ws-messages/index.js:244 | distinct ids render differently, so a pseudonym input names one query user |
| Base.Split | plugins/live-delphi-routes/index.js:793 | `split` on one character yields at least one part, none containing the separator |
| Base.JoinSplit | plugins/live-delphi-routes/index.js:62-83 | joining the split parts with the separator gives the original string back |
| Base.Uniq | plugins/live-delphi-user-management/index.js:45 | `_.uniq` yields no duplicates and exactly the elements of its input |
| Base.SortBySorted | plugins/live-delphi-data-export/index.js:166-168 | sorting by a key gives ascending key order and keeps the length |
| Base.SortByPermutes | plugins/live-delphi-data-export/index.js:166-168 | sorting is a permutation of its input |
| QueryUtils.ConvertToRange | client-src/js/query-utils.js:26-40 | the result is always within [toLow, toHigh]: the unclamped scaling when that is in range, `toLow` when it is below and `toHigh` when it is above |
| QueryUtils.ConvertToRangeProportional | client-src/js/query-utils.js:26-40 | on ranges starting at 0 the conversion is `value * toHigh / fromHigh` |
| QueryUtils.Intensity | client-src/js/query-utils.js:14-15 | a coordinate's colour intensity is an integer in 0..255 |
| QueryUtils.AxisColor | client-src/js/query-utils.js:9-10 | a truthy axis colour is used, otherwise the default |
| QueryUtils.GetColor | client-src/js/query-utils.js:8-24 | each channel is the x intensity if the x axis names it, else the y intensity if the y axis names it, else the base colour (100 by default); alpha defaults to 1 |
| QueryUtils.GetColorDefaults | client-src/js/query-utils.js:8-24 | with default axes red follows x, blue follows y, green is 100 |
| QueryUtils.GetColorUnnamedChannelIsBase | client-src/js/query-utils.js:16-18 | a channel neither axis names gets the base colour |
| QueryUtils.GetColorXAxisWins | client-src/js/query-utils.js:16-18 | when both axes name one channel, the x intensity wins |
| QueryScale2dEntry.GetRow | plugins/live-delphi-data-export/queryscale2dentry.js:55-58 | the row is `[userHash, x, y]` |
| QueryScale2dEntry.EntryOfRow | plugins/live-delphi-data-export/queryscale2dentry.js:55-58 | any entry read back from a row produces that row again |
| QueryScale2dEntry.EntryRoundTrip | plugins/live-delphi-data-export/queryscale2dentry.js:17-58 | getters return the constructor arguments and an entry's row reads back to the entry |
| QueryScale2dData.GetRows | plugins/live-delphi-data-export/queryscale2ddata.js:33-36 | one row per entry, in entry order |
| QueryScale2dData.RowsDetermineEntries | plugins/live-delphi-data-export/queryscale2ddata.js:24-36 | equal rows imply equal entries: `getRows` loses nothing |
| QueryScale2dAnalysis.AnalysisGetters | plugins/live-delphi-analysis/queryscale2danalysis.js:16-38 | accessor check only: the getters read back the constructor arguments |
| Analysis.Side | plugins/live-delphi-analysis/index.js:31-34 | side is 1 exactly when the coordinate is above 3.5 |
| Analysis.GroupIndex | plugins/live-delphi-analysis/index.js:31-36 | the quadrant index is below 4, odd iff x > 3.5, at least 2 iff y > 3.5 |
| Analysis.GroupCountsSum | plugins/live-delphi-analysis/index.js:28-47 | every entry is counted in exactly one quadrant: the four counts sum to the entry count |
| Analysis.AnalyzeScale2d | plugins/live-delphi-analysis/index.js:28-47 | the answer count is the entry count and each group count is that quadrant's count |
| Analysis.AnalysisCountsAddUp | plugins/live-delphi-analysis/index.js:28-47 | the analysis's group counts add up to its answer count |
| Analysis.CentreIsLowSide | plugins/live-delphi-analysis/index.js:31-36 | a point exactly at the centre falls in quadrant 0 |
| ChartsPlugin.TickLabel | plugins/live-delphi-charts/index.js:122-124 | a tick has a label exactly for values 0..6 |
| ChartsPlugin.AxisTicksLabelled | plugins/live-delphi-charts/index.js:76-124 | every axis tick 0..6 is labelled and the middle one is "-/+" |
| ChartsPlugin.ChartChannel | plugins/live-delphi-charts/index.js:67-69 | a channel is the x intensity if the x axis names it, else the y intensity if the y axis names it, else 100 |
| ChartsPlugin.GetColor | plugins/live-delphi-charts/index.js:61-73 | the colour string has the `rgb(…)` shape |
| ChartsPlugin.GetColorAgreesWithClient | plugins/live-delphi-charts/index.js:61-73 | the server's channels equal the client's `getColor` channels |
| ChartsPlugin.Datasets | plugins/live-delphi-charts/index.js:81-90 | one single-point dataset per entry, in order, coloured by its position |
| LiveDelphiClient.SocketUrl | client-src/js/live-delphi-client.js:68-70 | the URL is the base, '/', and the session id ("undefined" when absent) |
| LiveDelphiClient.SocketUrlInjective | client-src/js/live-delphi-client.js:68-70 | different sessions get different URLs |
| LiveDelphiClient.MessageEventName | client-src/js/live-delphi-client.js:99-102 | an incoming frame triggers `message:` followed by its type |
| LiveDelphiClient.Client.constructor | client-src/js/live-delphi-client.js:13-16 | a new widget has no state, no socket and an empty queue |
| LiveDelphiClient.Client.Connect | client-src/js/live-delphi-client.js:18-42 | the state becomes CONNECTING and a socket for the session's URL is created when the browser has one |
| LiveDelphiClient.Client.SendMessage | client-src/js/live-delphi-client.js:77-85 | when CONNECTED the message is written and the queue unchanged; otherwise it is appended to the queue and nothing is written |
| LiveDelphiClient.Client.OnWebSocketOpen | client-src/js/live-delphi-client.js:87-97 | the queue is written in FIFO order and left empty, the state becomes CONNECTED and one `connect` event fires |
| LiveDelphiClient.Client.OnWebSocketMessage | client-src/js/live-delphi-client.js:99-102 | one event named after the frame's type carries the frame's data |
| LiveDelphiClient.Client.Reconnect | client-src/js/live-delphi-client.js:48-66 | the timer is cleared; a socket that is not CONNECTING is replaced by one for the URL without a session id |
| LiveDelphiClient.Client.ReconnectToSession | client-src/js/live-delphi-client.js:48-66 | as `_reconnect`, but the new socket is for the last session |
| LiveDelphiClient.Client.OnReconnectTimeout | client-src/js/live-delphi-client.js:59-64 | the timer fires and reconnects only when the socket is CLOSED |
| LiveDelphiClient.Client.OnWebSocketClose | client-src/js/live-delphi-client.js:104-107 | closing the socket leads to a reconnect |
| LiveDelphiClient.Client.OnWebSocketError | client-src/js/live-delphi-client.js:109-112 | an error runs `_reconnect`: unless the socket is CONNECTING, a CONNECTING socket for the URL without a session id; a timer is scheduled |
| LiveDelphiClient.ReconnectLosesSession | client-src/js/live-delphi-client.js:48-66 | after a close the widget's new URL differs from its session URL |
| LiveDelphiClient.ReconnectKeepsSession | client-src/js/live-delphi-client.js:48-66 | with the corrected reconnect the URL is the session URL again |
| LiveDelphiClient.QueuedBeforeLater | client-src/js/live-delphi-client.js:77-97 | a message queued before open reaches the socket before one sent after open |
| LegacyClient.LegacySocketUrl | public/index.js:65-69 | the URL is `ws://host:port/` followed by the session id |
| LegacyClient.LegacyUrlIsSocketUrl | public/index.js:65-69 | the legacy URL is the current widget's URL for the base `ws://host:port` |
| LegacyClient.Client.constructor | public/index.js:10-13 | a new widget has no state, no socket and an empty queue |
| LegacyClient.Client.Connect | public/index.js:15-39 | the state becomes CONNECTING, then a socket is created when the browser has one |
| LegacyClient.Client.SendMessage | public/index.js:77-84 | written when CONNECTED, otherwise appended to the queue |
| LegacyClient.Client.OnWebSocketOpen | public/index.js:86-93 | the queue is written in FIFO order and emptied, then CONNECTED |
| LegacyClient.Client.OnWebSocketMessage | public/index.js:95-100 | one generic `message` event carries the whole parsed message |
| LegacyClient.Client.Reconnect | public/index.js:45-63 | the timer is cleared; reconnects only without a socket or when it is not CONNECTING |
| LegacyClient.Client.OnReconnectTimeout | public/index.js:56-61 | reconnects only when the socket is CLOSED |
| LegacyClient.Client.OnWebSocketClose | public/index.js:102-105 | closing reconnects: CONNECTING with a socket for the URL without a session id |
| LegacyClient.Client.OnWebSocketError | public/index.js:107-110 | an error runs `_reconnect`: unless the socket is CONNECTING, a CONNECTING socket for the URL without a session id; a timer is scheduled |
| DataExport.LatestRows | plugins/live-delphi-data-export/index.js:96-108 | at most one row per query user, each `[hash(userId), x, y]` of a kept answer |
| DataExport.LatestRowsComplete | plugins/live-delphi-data-export/index.js:99-106 | every query user whose latest answer has truthy x and y has its row |
| DataExport.LatestRowsSkipDropped | plugins/live-delphi-data-export/index.js:99-106 | a missing answer or a zero coordinate gives no row |
| DataExport.AllTimedAnswersHolds | plugins/live-delphi-data-export/index.js:141-152 | every answer of every query user is collected, under the hash of that user's id |
| DataExport.CollectLatestRows | plugins/live-delphi-data-export/index.js:96-108 | the loop produces exactly the specified latest rows |
| DataExport.LatestAnswerDatas | plugins/live-delphi-data-export/index.js:80-95 | one entry per query user of the query, in store order |
| DataExport.ExportQueryLatestAnswerData | plugins/live-delphi-data-export/index.js:71-114 | an unknown query is rejected; otherwise the query and its latest rows |
| DataExport.Pseudonymised | plugins/live-delphi-data-export/index.js:141-152 | every answer of a query user gets that user's hash |
| DataExport.CollectTimedAnswers | plugins/live-delphi-data-export/index.js:141-158 | the nested loop collects every answer of every query user, in order |
| DataExport.TimedRows | plugins/live-delphi-data-export/index.js:170-174 | one `[createdAt, hash, x, y]` row per kept answer, in order |
| DataExport.TimedRowsAscending | plugins/live-delphi-data-export/index.js:166-174 | rows of time-sorted answers are in ascending time order |
| DataExport.TimedRowsSound | plugins/live-delphi-data-export/index.js:170-174 | every row is the row of a kept answer |
| DataExport.TimedRowsComplete | plugins/live-delphi-data-export/index.js:170-174 | every kept answer has its row |
| DataExport.SortedTimedRows | plugins/live-delphi-data-export/index.js:166-174 | sorting then pushing gives the rows of the sorted answers |
| DataExport.SortedTimedRowsProperties | plugins/live-delphi-data-export/index.js:166-174 | the timed rows are ascending in time, each belongs to a kept answer, and every kept answer is present |
| DataExport.ExportsSharePseudonym | plugins/live-delphi-data-export/index.js:96-174 | a participant with kept answers appears in the latest-answer export and in the timed export under the same pseudonym, the hash of their user id |
| DataExport.AnswersDatas | plugins/live-delphi-data-export/index.js:127-140 | one entry per query user with all its answers, in store order |
| DataExport.ExportQueryAnswerDataWithTimes | plugins/live-delphi-data-export/index.js:116-182 | an unknown query is rejected; otherwise the sorted timed rows |
| DataExport.RootsOf | plugins/live-delphi-data-export/index.js:222-233 | the non-replies in input order |
| DataExport.RepliesTo | plugins/live-delphi-data-export/index.js:222-233 | the replies to one parent in input order |
| DataExport.EveryCommentPlaced | plugins/live-delphi-data-export/index.js:222-233 | each comment is a root or among its parent's replies |
| DataExport.ThreadComments | plugins/live-delphi-data-export/index.js:222-233 | the loop splits comments into exactly the roots and the replies keyed by parent |
| DataExport.AttachReplies | plugins/live-delphi-data-export/index.js:235-237 | every root gets its replies, or `[]` when it has none |
| DataExport.ThreadsOf | plugins/live-delphi-data-export/index.js:222-237 | threads are the roots in order, each with its replies in order |
| DataExport.OrphanReplyInNoThread | plugins/live-delphi-data-export/index.js:235-257 | a reply whose parent is not a root appears in no thread |
| DataExport.ReplyRows | plugins/live-delphi-data-export/index.js:253-256 | one `[hash, x, y, null, text]` row per reply, in order |
| DataExport.CommentRowsCount | plugins/live-delphi-data-export/index.js:249-257 | the number of rows is the roots plus their replies |
| DataExport.CommentRowsOfLastThread | plugins/live-delphi-data-export/index.js:249-257 | a root's row is immediately followed by its replies' rows |
| DataExport.CollectCommentRows | plugins/live-delphi-data-export/index.js:249-257 | the nested loop produces exactly the specified comment rows, or an error for an unknown author |
| DataExport.ExportQueryComments | plugins/live-delphi-data-export/index.js:184-272 | an unknown query is rejected; otherwise the threaded comment rows |
| DataExport.SheetOf | plugins/live-delphi-data-export/index.js:29-34 | a sheet is one header row then the data rows |
| DataExport.LatestAnswersSheet | plugins/live-delphi-data-export/index.js:23-37 | the latest-answer sheet has length 1 + rows with the axis-label header |
| DataExport.WithTimesSheet | plugins/live-delphi-data-export/index.js:39-53 | the timed sheet has length 1 + rows with the header first |
| DataExport.CommentsSheet | plugins/live-delphi-data-export/index.js:55-69 | the comments sheet has length 1 + rows with the header first |
| AccessControl.Render | plugins/live-delphi-access-control/index.js:86 | how a template literal renders a string, undefined and null |
| AccessControl.GetAccessToken | plugins/live-delphi-access-control/index.js:197-204 | the token exactly when kauth, grant and access_token are present |
| AccessControl.GetLoggedUserId | plugins/live-delphi-access-control/index.js:212-215 | the token content's `sub`, nothing without a token or content |
| AccessControl.LoggedUserMiddleware | plugins/live-delphi-access-control/index.js:179-188 | `next` iff the user id is truthy, otherwise 403 |
| AccessControl.Lookup | plugins/live-delphi-access-control/index.js:52-60 | a present parameter is its value, a missing one undefined |
| AccessControl.ResourceId | plugins/live-delphi-access-control/index.js:50-63 | the id comes from params, query or body for path, query, body; null otherwise |
| AccessControl.ResourceIdNullOnlyForUnknownSource | plugins/live-delphi-access-control/index.js:50-63 | the id is null exactly for an unknown source |
| AccessControl.ResourceString | plugins/live-delphi-access-control/index.js:86 | the resource is the type, ':' and the rendered id |
| AccessControl.ResourceStringSplits | plugins/live-delphi-access-control/index.js:86 | splitting the resource on ':' gives back type and id |
| AccessControl.ScopeString | plugins/live-delphi-access-control/index.js:135 | an array is joined with ',' (and splits back), anything else is rendered as is |
| AccessControl.JoinSplitsBack | plugins/live-delphi-access-control/index.js:135 | joining separator-free parts and splitting gives the parts back |
| AccessControl.PermissionField | plugins/live-delphi-access-control/index.js:149 | the field starts with the resource followed by '#' |
| AccessControl.PermissionFieldSplits | plugins/live-delphi-access-control/index.js:149 | the field splits on '#' into the resource and the scope string's parts |
| AccessControl.ProtectResource | plugins/live-delphi-access-control/index.js:47-70 | `next` iff authenticated, logged in and entitled; otherwise the first failing step's answer |
| AccessControl.DecodeRptToken | plugins/live-delphi-access-control/index.js:26-40 | user name, roles and one permission per RPT permission in order |
| Routes.ResourceName | plugins/live-delphi-routes/index.js:180-236 | the Keycloak resource name is the access-control resource string for the id |
| Routes.ResourceNameSplits | plugins/live-delphi-routes/index.js:793-795 | a name built as at lines 180 and 236 splits back into the type and the id |
| Routes.IdOfType | plugins/live-delphi-routes/index.js:793-796 | a resource of the type yields its segment [1], others nothing |
| Routes.AllowedIds | plugins/live-delphi-routes/index.js:789-800 | at most one id per permission, in permission order |
| Routes.GetAllowedResourceIdsWithType | plugins/live-delphi-routes/index.js:789-800 | the loop yields exactly the allowed ids |
| Routes.AllowedIdsOfCreatedResource | plugins/live-delphi-routes/index.js:789-800 | a permission on a resource created (lines 180, 236) as `type:id` contributes that id |
| Routes.AllowedIdsSkipOtherType | plugins/live-delphi-routes/index.js:789-800 | a permission of another type contributes nothing |
| Routes.AllowedIdsOfBareName | plugins/live-delphi-routes/index.js:793-796 | a name without ':' that equals the type yields an undefined id |
| Routes.ProtectionOf | plugins/live-delphi-routes/index.js:180-184 | resource, policy and permission are named after the created record |
| Routes.PostCreateQuery | plugins/live-delphi-routes/index.js:216-249 | created iff all six required fields are truthy, as a 2D query holding the form's start, end, name, thesis, labels and axis colours, with its protection; otherwise 500 |
| Routes.PostCreateQueryFolder | plugins/live-delphi-routes/index.js:172-193 | created iff name and user id are truthy; otherwise 500 |
| Routes.CreatedQueryIsAllowed | plugins/live-delphi-routes/index.js:216-249 | read back by `getAllowedResourceIdsWIthType` (lines 789-800), the creator's permission on a new query yields the query's id |
| Routes.FindQueryUser | plugins/live-delphi-routes/index.js:468-470 | the position of the query user with that query and user, if any |
| Routes.PostJoinQuery | plugins/live-delphi-routes/index.js:447-496 | 403 before any lookup for an unknown session or one without a user; otherwise the session points at the found or created query user and the hash is of its id |
| Routes.JoinFindsOrCreates | plugins/live-delphi-routes/index.js:468-484 | an existing query user is reused without creating one; otherwise exactly one is created |
| Routes.JoinPreservesValidity | plugins/live-delphi-routes/index.js:468-484 | joining keeps ids distinct and never adds a second query user for a query and user |
| Routes.JoinIdempotent | plugins/live-delphi-routes/index.js:447-496 | joining twice gives the same response (query user and hash) and the second join leaves the store exactly as the first left it |
| Routes.SegmentOf | plugins/live-delphi-routes/index.js:671-676 | a comment's segment index is below 4 |
| Routes.SegmentSpecStep | plugins/live-delphi-routes/index.js:671-680 | adding a comment changes only its own segment, by one comment and its reply count |
| Routes.SegmentComments | plugins/live-delphi-routes/index.js:646-680 | four segments, each holding its quadrant's comments in order with their counts |
| Routes.SegmentCountsAddUp | plugins/live-delphi-routes/index.js:646-680 | the comment counts sum to the number of comments and the reply counts to the number of replies |
| Routes.AccessCodes | plugins/live-delphi-routes/index.js:62 | no codes without a truthy parameter; otherwise the codes join back to the parameter and contain no ',' |
| Routes.FolderGroups | plugins/live-delphi-routes/index.js:74-78 | only folders with queries in progress, each with those queries, in order |
| Routes.FolderGroupsComplete | plugins/live-delphi-routes/index.js:74-78 | every folder with a query in progress is listed |
| Routes.FolderIds | plugins/live-delphi-routes/index.js:66-71 | `null` followed by the folder ids in order |
| Routes.CodeLookup | plugins/live-delphi-routes/index.js:63 | `null` followed by the access codes |
| Routes.ListFolderedQueries | plugins/live-delphi-routes/index.js:65-72 | each folder's in-progress queries and the folder ids after `null` |
| Routes.GroupFolders | plugins/live-delphi-routes/index.js:74-78 | the loop yields exactly the specified folder groups |
| Routes.GetQueries | plugins/live-delphi-routes/index.js:52-90 | the unfoldered group first iff non-empty, then the folder groups; the ended queries of the folder ids; the codes echoed |
| Routes.ListingAccessCodesEchoParameter | plugins/live-delphi-routes/index.js:62-83 | the rendered access codes are the parameter, or empty without one |
| UserManagement.DisplayName | plugins/live-delphi-user-management/index.js:103-118 | "first last" with both names, else the one given, else `<email>`; never empty |
| UserManagement.DisplayNameStartsWithGivenName | plugins/live-delphi-user-management/index.js:110-114 | a user with a name is shown by that name, never by e-mail |
| UserManagement.IsValidUserId | plugins/live-delphi-user-management/index.js:120-126 | false for a non-string; for a string, whether some suffix has the UUID-like shape |
| UserManagement.PrefixedIdStaysValid | plugins/live-delphi-user-management/index.js:122 | the unanchored pattern accepts any prefix before a valid id |
| UserManagement.ShortIdRejected | plugins/live-delphi-user-management/index.js:122 | a string shorter than 36 characters is rejected |
| UserManagement.ClientCache.constructor | plugins/live-delphi-user-management/index.js:16-25 | no client and a fresh one required |
| UserManagement.ClientCache.OnRefreshInterval | plugins/live-delphi-user-management/index.js:22-24 | the next request creates a new client |
| UserManagement.ClientCache.GetClient | plugins/live-delphi-user-management/index.js:128-135 | a new client exactly when there is none or a fresh one is required; the flag is cleared |
| UserManagement.UserGroupIds | plugins/live-delphi-user-management/index.js:41-49 | distinct ids, exactly those of the user's groups |
| UserManagement.GroupMembers | plugins/live-delphi-user-management/index.js:89-101 | a failed lookup resolves to no members |
| UserManagement.FlattenMembers | plugins/live-delphi-user-management/index.js:75-87 | the present members of all groups, in order |
| UserManagement.Compact | plugins/live-delphi-user-management/index.js:82 | drops the empty entries and keeps the rest in order |
| UserManagement.GroupsMemberIds | plugins/live-delphi-user-management/index.js:65-73 | distinct ids, exactly those of the members found |
| CliOptions.FirstMissing | options/index.js:39-46 | the first required option that is not truthy, in order |
| CliOptions.ErrorOf | options/index.js:30-49 | the parse message, else 'help', else the first missing option's message, else none |
| CliOptions.GetError | options/index.js:30-49 | the loop with early return computes exactly that error |
| CliOptions.PortReportedBeforeHost | options/index.js:39-46 | with neither given, the port is reported |
| CliOptions.HelpBeforeMissingOptions | options/index.js:35-37 | help is answered even with required options missing |
| CliOptions.IsOk | options/index.js:51-53 | ok iff the error is falsy |
| CliOptions.GetOption | options/index.js:59-61 | a truthy stored value, else the default; a failed parse is a TypeError |
| CliOptions.GetOptionFalsyUsesDefault | options/index.js:59-61 | a stored 0 reads as the default |
| CliOptions.UsageSections | options/index.js:63-92 | the two fixed sections, then the error unless it is 'help' or none |
| CliOptions.UsageShowsOnlyRealErrors | options/index.js:85-89 | help prints no error section, a missing option does |
| LiveChart.ColorOf | client-src/js/live-delphi-chart.js:112-118 | green is 50 and red and blue are the query-utils default intensities |
| LiveChart.NewDataSet | client-src/js/live-delphi-chart.js:120-123 | a well-formed series showing only the point |
| LiveChart.IndexOf | client-src/js/live-delphi-chart.js:81 | the first position of the hash, or -1 when absent |
| LiveChart.PointsOf | client-src/js/live-delphi-chart.js:77-93 | the shown participants are exactly the hashes |
| LiveChart.PointsOfAt | client-src/js/live-delphi-chart.js:77-93 | with distinct hashes, a series's point is its hash's point |
| LiveChart.PointsOfUpdate | client-src/js/live-delphi-chart.js:82-86 | replacing a series changes only its hash's point |
| LiveChart.PointsOfAppend | client-src/js/live-delphi-chart.js:87-90 | appending a new series adds its hash's point |
| LiveChart.Chart.constructor | client-src/js/live-delphi-chart.js:18-66 | no series |
| LiveChart.Chart.UserData | client-src/js/live-delphi-chart.js:77-93 | the participant's point becomes the data, no other point changes, hashes stay distinct |
| LiveChart.LatestPointWins | client-src/js/live-delphi-chart.js:77-93 | after several updates each participant is shown at their latest point |
| FinishedQueryPlayback.SliderTime | client-src/js/finished-query-playback.js:50 | a slider value in 0..100 stands for a time between first and last |
| FinishedQueryPlayback.Progress | client-src/js/finished-query-playback.js:83 | undefined iff first equals last; within 0..100 for times in range |
| FinishedQueryPlayback.SliderEnds | client-src/js/finished-query-playback.js:50 | 0 is the first time and 100 the last |
| FinishedQueryPlayback.ProgressOfSliderTime | client-src/js/finished-query-playback.js:50-83 | the progress of a slider time is the slider value |
| FinishedQueryPlayback.Playback.constructor | client-src/js/finished-query-playback.js:6-36 | stopped, not clicking, nothing sent |
| FinishedQueryPlayback.Playback.OnConnect | client-src/js/finished-query-playback.js:108-120 | asks for the query duration |
| FinishedQueryPlayback.Playback.OnDurationFound | client-src/js/finished-query-playback.js:131-135 | first, last and the current time set from the reply |
| FinishedQueryPlayback.Playback.OnMouseDown | client-src/js/finished-query-playback.js:54-63 | pauses, remembering whether it was playing, and starts clicking |
| FinishedQueryPlayback.Playback.OnMouseUp | client-src/js/finished-query-playback.js:38-52 | stops clicking, resumes if interrupted, jumps to the slider time and asks for it |
| FinishedQueryPlayback.Playback.OnMouseMove | client-src/js/finished-query-playback.js:65-74 | only while clicking: jumps to the slider time and asks for it |
| FinishedQueryPlayback.Playback.Play | client-src/js/finished-query-playback.js:122-125 | playing with one more tick scheduled |
| FinishedQueryPlayback.Playback.Pause | client-src/js/finished-query-playback.js:127-129 | not playing, nothing else changes |
| FinishedQueryPlayback.Playback.Tick | client-src/js/finished-query-playback.js:76-88 | while playing: time advances 1000 ms, a request is sent, progress updates and the next tick is scheduled; otherwise nothing |
| FinishedQueryPlayback.Playback.OnAnswersFound | client-src/js/finished-query-playback.js:100-106 | time jumps to the answer's and the participant's point moves |
| FinishedQueryPlayback.PausedTickSendsNothing | client-src/js/finished-query-playback.js:76-129 | a tick after pause neither advances time nor sends |
| FinishedQueryPlayback.DragWhilePlayingResumes | client-src/js/finished-query-playback.js:38-63 | dragging while playing pauses and releasing resumes |
| FinishedQueryCommentPlayback.CreateClassName | client-src/js/finished-query-comment-playback.js:149-159 | each of the four containers exactly for its quadrant by `<= 3` |
| FinishedQueryCommentPlayback.ClientAndServerQuadrantsDiffer | client-src/js/finished-query-comment-playback.js:149-159 | x = 3.25 is high on the client, low on the server |
| FinishedQueryCommentPlayback.CommentColor | client-src/js/finished-query-comment-playback.js:197-201 | green 50; red and blue are the query-utils intensities over 0..6 |
| FinishedQueryCommentPlayback.AppendChild | client-src/js/finished-query-comment-playback.js:161-163 | appends to the reply list of the parent's boxes only |
| FinishedQueryCommentPlayback.PrepareComment | client-src/js/finished-query-comment-playback.js:131-147 | an unseen root is prepended to its quadrant; an unseen reply appended to its parent; a seen one changes nothing |
| FinishedQueryCommentPlayback.PrepareCommentIdempotent | client-src/js/finished-query-comment-playback.js:131-147 | preparing the same comment twice equals preparing it once |
| FinishedQueryCommentPlayback.PrepareCommentShows | client-src/js/finished-query-comment-playback.js:131-147 | after preparing, the root box or reply is on the board |
| FinishedQueryCommentPlayback.RemoveRoot | client-src/js/finished-query-comment-playback.js:114-116 | exactly the boxes with the id are removed; the others stay in their order |
| FinishedQueryCommentPlayback.CommentPlayback.constructor | client-src/js/finished-query-comment-playback.js:6-39 | stopped, empty board, nothing sent |
| FinishedQueryCommentPlayback.CommentPlayback.OnConnect | client-src/js/finished-query-comment-playback.js:222-233 | asks for the comments' duration |
| FinishedQueryCommentPlayback.CommentPlayback.OnDurationFound | client-src/js/finished-query-comment-playback.js:244-248 | first, last and the current time set |
| FinishedQueryCommentPlayback.CommentPlayback.OnMouseDown | client-src/js/finished-query-comment-playback.js:58-66 | pauses, remembering whether it was playing |
| FinishedQueryCommentPlayback.ClickedValue | client-src/js/finished-query-comment-playback.js:49-50 | the slider value `offsetX * max / width`; no finite value when the width is undefined (or 0); within 0..max for a click inside the bar |
| FinishedQueryCommentPlayback.JumpTime | client-src/js/finished-query-comment-playback.js:52 | `first + value / 100 * (last - first)`, between first and last for values 0..100, not a number when the value is not |
| FinishedQueryCommentPlayback.MouseUpLosesTime | client-src/js/finished-query-comment-playback.js:48-53 | reading the width from the jQuery wrapper makes the jump time not a number for every click; reading it from the element gives a time between first and last |
| FinishedQueryCommentPlayback.CommentPlayback.OnMouseUp | client-src/js/finished-query-comment-playback.js:41-56 | as written: resumes if interrupted, the current time becomes NaN, and the removal and comment requests both carry NaN |
| FinishedQueryCommentPlayback.CommentPlayback.OnMouseUpFixed | client-src/js/finished-query-comment-playback.js:41-56 | with the width read from the element: resumes if interrupted, jumps to a time between first and last for a click on the bar, asks for removals then comments |
| FinishedQueryCommentPlayback.CommentPlayback.OnMouseMove | client-src/js/finished-query-comment-playback.js:68-78 | only while clicking: jumps to the time of the click (width read from the element), asks for removals then comments |
| FinishedQueryCommentPlayback.CommentPlayback.Play | client-src/js/finished-query-comment-playback.js:235-238 | playing with a tick scheduled |
| FinishedQueryCommentPlayback.CommentPlayback.Pause | client-src/js/finished-query-comment-playback.js:240-242 | not playing |
| FinishedQueryCommentPlayback.CommentPlayback.Tick | client-src/js/finished-query-comment-playback.js:80-92 | while playing: advances 1000 ms and asks for comments; otherwise nothing |
| FinishedQueryCommentPlayback.CommentPlayback.OnCommentFound | client-src/js/finished-query-comment-playback.js:118-129 | the board becomes the prepared board and time jumps to the comment's creation |
| FinishedQueryCommentPlayback.CommentPlayback.OnCommentToRemoveFound | client-src/js/finished-query-comment-playback.js:114-116 | the comment's box is removed |
| LiveQueryComments.ContainerOf | client-src/js/live-query-comments.js:49-59 | every comment has one of the four containers |
| LiveQueryComments.AddComment | client-src/js/live-query-comments.js:61-82 | a reply is ignored; a root is prepended to its quadrant's container only; placement is preserved |
| LiveQueryComments.AddAll | client-src/js/live-query-comments.js:148-150 | adding a batch keeps the containers and their placement |
| LiveQueryComments.AddAllContents | client-src/js/live-query-comments.js:148-150 | a container gains exactly the batch's roots of its quadrant |
| LiveQueryComments.SortAll | client-src/js/live-query-comments.js:135-139 | every container sorted by creation time |
| LiveQueryComments.SortContainer | client-src/js/live-query-comments.js:123-129 | a sorted container is in creation order and keeps its entries |
| LiveQueryComments.BatchShowsRootsInOrder | client-src/js/live-query-comments.js:145-155 | after a batch every container is in creation order and holds its old entries plus the batch's roots of its quadrant |
| LiveQueryComments.LiveComments.constructor | client-src/js/live-query-comments.js:13-33 | four empty containers marked as loading |
| LiveQueryComments.LiveComments.OnConnect | client-src/js/live-query-comments.js:39-143 | asks for the query's root comments as one batch |
| LiveQueryComments.LiveComments.OnCommentsAdded | client-src/js/live-query-comments.js:145-155 | the containers become the sorted result of adding the batch; loading ends |
| LiveQueryComments.LiveComments.OnCommentAdded | client-src/js/live-query-comments.js:157-162 | the comment is added and its quadrant's container re-sorted |
| LiveQueryComments.LiveComments.OnCommentContainerClick | client-src/js/live-query-comments.js:164-189 | the dialog shows the clicked comment with the colour it is shown with |
| WsMessages.ParseType | plugins/live-delphi-ws-messages/index.js:312-346 | a recognised string selects its handler; anything else is unknown |
| WsMessages.ParseTypeName | plugins/live-delphi-ws-messages/index.js:312-343 | each handler is reached by exactly its own type string |
| WsMessages.ClientTypesNotRouted | plugins/live-delphi-ws-messages/index.js:312-346 | `find-answers-by-time`, `join-query` and `list-root-comments-by-query` are unknown |
| WsMessages.TimeValue | plugins/live-delphi-ws-messages/index.js:261-262 | `new Date(t)` truncates toward zero |
| WsMessages.CommentWindow | plugins/live-delphi-ws-messages/index.js:261-262 | the search window is one second long |
| WsMessages.SelectLookup | plugins/live-delphi-ws-messages/index.js:210-235 | no lookup without a query id or both bounds; Between, Lte or Gte by the bounds present |
| WsMessages.LatestAnswerReplies | plugins/live-delphi-ws-messages/index.js:237-253 | at most one `answer-found` per query user, each for the query |
| WsMessages.CollectLatestAnswers | plugins/live-delphi-ws-messages/index.js:237-253 | the loop sends exactly the specified replies |
| WsMessages.LatestAnswerRepliesExact | plugins/live-delphi-ws-messages/index.js:237-253 | a user is answered iff the lookup found an answer, with the hash of their id |
| WsMessages.LivePseudonymPerQueryUser | plugins/live-delphi-ws-messages/index.js:244 | the live pages hash the query-user id, so with a collision-free hash one participant's query users in two queries get different pseudonyms (the exports hash the user id instead) |
| WsMessages.CommentFoundReply | plugins/live-delphi-ws-messages/index.js:270-282 | root flag is `== 1`; parent null exactly when the comment has none |
| WsMessages.CommentRepliesOf | plugins/live-delphi-ws-messages/index.js:268-283 | one reply per comment, in order |
| WsMessages.CollectCommentsByTime | plugins/live-delphi-ws-messages/index.js:257-288 | the nested loop sends exactly the specified replies for the one-second window |
| WsMessages.CommentsByTimeRepliesShape | plugins/live-delphi-ws-messages/index.js:265-285 | every reply is a found comment of some query user |
| WsMessages.RemoveReplies | plugins/live-delphi-ws-messages/index.js:294-303 | one removal per newer comment, in order |
| WsMessages.ChildReplies | plugins/live-delphi-ws-messages/index.js:69-80 | one `comment-added` per child with its fields, in order |
| WsMessages.SendEach | plugins/live-delphi-ws-messages/index.js:69-80 | the replies are sent in order after what was sent |
| WsMessages.QueryDurationReplies | plugins/live-delphi-ws-messages/index.js:149-176 | one reply per query user, all from the first lookup to resolve |
| WsMessages.FirstPresent | plugins/live-delphi-ws-messages/index.js:187-192 | none iff nothing was found; otherwise the first found |
| WsMessages.RootFlag | plugins/live-delphi-ws-messages/index.js:97 | the stored flag is 1 iff the comment is a root |
| WsMessages.Dispatcher.constructor | plugins/live-delphi-ws-messages/index.js:18-22 | nothing sent, published or logged |
| WsMessages.Dispatcher.OnPing | plugins/live-delphi-ws-messages/index.js:32-36 | one `pong`, nothing else |
| WsMessages.Dispatcher.OnAnswerChanged | plugins/live-delphi-ws-messages/index.js:38-58 | with the query user: one answer created and one event with its query; without: a warning; no session: a logged failure; never a reply |
| WsMessages.Dispatcher.OnCommentOpened | plugins/live-delphi-ws-messages/index.js:60-87 | the children's `comment-added` to the requester only |
| WsMessages.Dispatcher.OnComment | plugins/live-delphi-ws-messages/index.js:89-120 | root iff the parent is not found, then with no parent; from the sender's query user; one event |
| WsMessages.ActiveSummaries | plugins/live-delphi-ws-messages/index.js:131-140 | one summary per query in progress, in order, with its id, name, thesis, axis labels and end |
| WsMessages.Dispatcher.OnListActiveQueries | plugins/live-delphi-ws-messages/index.js:122-147 | one `queries-found` with the summaries of every query in progress, and nothing else |
| WsMessages.Dispatcher.OnFindQueryDuration | plugins/live-delphi-ws-messages/index.js:149-176 | one duration reply per query user |
| WsMessages.Dispatcher.OnFindQueryCommentsDuration | plugins/live-delphi-ws-messages/index.js:178-203 | the first found duration, or a logged failure |
| WsMessages.Dispatcher.OnListLatestAnswers | plugins/live-delphi-ws-messages/index.js:205-255 | the guards log and stop; otherwise the specified replies |
| WsMessages.Dispatcher.OnFindCommentsByTime | plugins/live-delphi-ws-messages/index.js:257-288 | the specified `comment-found` replies |
| WsMessages.Dispatcher.OnFindCommentsToRemoveByTime | plugins/live-delphi-ws-messages/index.js:290-305 | one removal per newer comment |
| WsMessages.Dispatcher.OnMessage | plugins/live-delphi-ws-messages/index.js:307-346 | each recognised type has exactly its handler's effect on replies, store, bus and log; an unknown type is only logged; only `answer` and `comment` touch the store or the bus |

## Left out

- SHA-256 (FIPS 180-4) is the parameter `hash`. Nothing is claimed about it beyond being a function.
- JSON parsing and serialisation, JWT decoding, and the Keycloak adapter and admin client are left out. Their results are parameters.
- The DOM is left out: element lookup, animation, scrolling, the pug templates, bootbox dialogs and moment formatting.
- Rendering is left out: XLSX writing, PDF and PNG rendering, and the chart.js options other than ticks and datasets.
- Express routing and the views rendered are left out.
- Timers are explicit steps (`Tick`, `OnReconnectTimeout`, `OnRefreshInterval`). Time itself is the parameter `now`.
- Promise interleavings are left out. Each handler runs to completion. In `getQueryDuration` the lookup that resolves first is the parameter `firstResolved`.
- Floating point is modelled as exact reals. NaN is modelled only for the comment playback's current time (as `None`); elsewhere, as when the answer playback's slider is moved before the duration arrives, it is not modelled. The playback starts with first and last at 0.
- Store and Keycloak failures are not modelled: the store interfaces are total and never reject. A rejected promise in a WebSocket handler is only logged by `handleWebSocketError` (plugins/live-delphi-ws-messages/index.js:24-30). A failing route answers 500 after whatever writes already happened, for example a query created before its Keycloak protection fails (plugins/live-delphi-routes/index.js:216-249). Neither path is modelled.
- `LiveChart.ColorOf`: does not model the opacity term of `getColor` or the `_updateFade` interval (client-src/js/live-delphi-chart.js:69-75, 112-118), because both depend on the clock.
- `LiveDelphiClient.Client.Connect`: the OPEN and default branches of `connect` are unreachable, because a newly created WebSocket is always CONNECTING. They are not modelled.
- `Routes.PostCreateQuery`: the unused `folderId` form field and the four segment background colours passed to `createQuery` (plugins/live-delphi-routes/index.js:228-235) are not modelled.
- `UserManagement.DisplayName`: the attributes loop at plugins/live-delphi-user-management/index.js:104-108 builds a map that is never read, so it is not modelled.
- Routes: the segment background colours, the PDF report rendering and the other page handlers (edit, delete, export responses) are not part of this model.
- DataExport: the HTTP status of a rejected export is not modelled. The exports reject an unknown query with `new Error({code: 404, …})` (plugins/live-delphi-data-export/index.js:75-78), whose message is "[object Object]" and whose `code` is undefined, so the export routes answer 500 "[object Object]" rather than 404 (plugins/live-delphi-routes/index.js:386-387). The model stops at the rejection `Err(NotFound)`.
- The scatter report, the comment report and the chart PNG call `exportQueryLatestAnswerDataAsQueryData` and `exportQueryCommentData` (plugins/live-delphi-routes/index.js:608, 645; plugins/live-delphi-charts/index.js:79), which plugins/live-delphi-data-export/index.js does not define, so as written they reject with a TypeError. `Analysis.AnalyzeScale2d` and `ChartsPlugin.Datasets` assume a producer that gives the query's `QueryScale2dData` of latest answers, and `Routes.SegmentComments` one that gives the query's comments grouped into threads as `DataExport.ThreadsOf` builds them.
- `Routes.JoinPreservesValidity`: `getLiveQuery`, `getQueryLiveComments`, `getQueryPlayback` and `getQueryCommentPlayback` call `createQueryUser` without looking for an existing one (plugins/live-delphi-routes/index.js:98, 125, 536, 563), so the program's store can hold several query users for one query and user. `ValidJoinStore` is preserved by joining only and is an assumption of the lemma.
- WsMessages: `currentTime` arriving undefined (giving an invalid date) is not modelled.
- The store's query implementations (`findLatestAnswerByQueryUserAndCreatedLte` and the others) are not part of this model. Only their interface is.
- `LiveQueryComments`: the comment container's data attributes are stored as parsed values. The `data-query-id` attribute is the constructor argument.
- `FinishedQueryPlayback.Playback.OnConnect`: the chart is created in the constructor rather than on connect.

## Findings

| source | as written | input that shows it | evidently intended | confidence | as-written member | corrected member |
|---|---|---|---|---|---|---|
| client-src/js/live-delphi-client.js:48-66 | `_reconnect` calls `connect()` with no session id, so the new socket URL ends in "/undefined" (the same holds in public/index.js:45-63) | a session "s" whose socket closes: the next URL is `wsUrl + "/undefined"` instead of `wsUrl + "/s"` | reconnect to the session of the last `connect` | not executed | LiveDelphiClient.ReconnectLosesSession | LiveDelphiClient.Client.ReconnectToSession |
| client-src/js/finished-query-comment-playback.js:48-53 | `_onMouseUp` divides by `offsetWidth` of the jQuery wrapper `$('#progressBar')`, which is `undefined`, so the slider value and the current time are NaN | any mouse-up on the progress bar: both requests carry NaN and the playback continues from NaN | read the width from the DOM element, as `_onMouseMove` does at line 70, and jump to the clicked time | not executed | FinishedQueryCommentPlayback.CommentPlayback.OnMouseUp | FinishedQueryCommentPlayback.CommentPlayback.OnMouseUpFixed |
