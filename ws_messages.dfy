/** Model of plugins/live-delphi-ws-messages/index.js: the server's handler
    of WebSocket messages. A message is routed on its type string; each
    handler reads the store, writes answers and comments, publishes events
    on the message bus, replies to the sending client, or logs. The store's
    records (sessions, query users, comments, answers) are maps and a list;
    its queries are function-valued collaborators; the bus, the replies and
    the log are append-only lists. SHA-256 is the parameter `hash` and the
    clock the parameter `now`. Promise chains run to completion in order. */
module WsMessages {
  import opened Base

  // ---------------------------------------------------------------------
  // Routing

  datatype MessageType =
    | Ping | AnswerMsg | CommentOpened | CommentMsg | ListActiveQueries
    | FindQueryDuration | FindQueryCommentsDuration | ListLatestAnswers
    | FindCommentsByTime | FindCommentsToRemoveByTime
    | Unknown(name: string)

  /** The type string each handler is registered under. */
  function TypeName(t: MessageType): string
    requires !t.Unknown?
  {
    match t
    case Ping => "ping"
    case AnswerMsg => "answer"
    case CommentOpened => "comment-opened"
    case CommentMsg => "comment"
    case ListActiveQueries => "list-active-queries"
    case FindQueryDuration => "find-query-duration"
    case FindQueryCommentsDuration => "find-query-comments-duration"
    case ListLatestAnswers => "list-latest-answers"
    case FindCommentsByTime => "find-comments-by-time"
    case FindCommentsToRemoveByTime => "find-comments-to-remove-by-time"
  }

  const Recognised: set<string> := {
    "ping", "answer", "comment-opened", "comment", "list-active-queries",
    "find-query-duration", "find-query-comments-duration", "list-latest-answers",
    "find-comments-by-time", "find-comments-to-remove-by-time" }

  /** The `switch` of `onMessage`: a recognised string selects its handler,
      anything else the default branch. */
  function ParseType(s: string): (t: MessageType)
    ensures t.Unknown? <==> s !in Recognised
    ensures t.Unknown? ==> t.name == s
    ensures !t.Unknown? ==> TypeName(t) == s
  {
    if s == "ping" then Ping
    else if s == "answer" then AnswerMsg
    else if s == "comment-opened" then CommentOpened
    else if s == "comment" then CommentMsg
    else if s == "list-active-queries" then ListActiveQueries
    else if s == "find-query-duration" then FindQueryDuration
    else if s == "find-query-comments-duration" then FindQueryCommentsDuration
    else if s == "list-latest-answers" then ListLatestAnswers
    else if s == "find-comments-by-time" then FindCommentsByTime
    else if s == "find-comments-to-remove-by-time" then FindCommentsToRemoveByTime
    else Unknown(s)
  }

  /** Every handler is reached by exactly its own type string. */
  lemma ParseTypeName(t: MessageType)
    requires !t.Unknown?
    ensures ParseType(TypeName(t)) == t
  {
  }

  /** Types the browser pages send that the server does not route:
      the answer playback's, the live query's join and the live comments'
      initial load. */
  lemma ClientTypesNotRouted()
    ensures ParseType("find-answers-by-time").Unknown?
    ensures ParseType("join-query").Unknown?
    ensures ParseType("list-root-comments-by-query").Unknown?
  {
  }

  // ---------------------------------------------------------------------
  // Records, messages, replies and events

  datatype Session = Session(queryUserId: Option<nat>)

  datatype QueryUser = QueryUser(id: nat, queryId: nat, userId: string)

  datatype Answer = Answer(id: nat, queryUserId: nat, x: Option<real>, y: Option<real>, createdAt: int)

  /** A stored comment; `isRootComment` is the stored flag, 1 for a root. */
  datatype StoredComment = StoredComment(
    id: nat, isRootComment: int, parentCommentId: Option<nat>, queryUserId: nat, queryId: nat,
    comment: Option<string>, x: Option<real>, y: Option<real>, createdAt: int, updatedAt: int)

  datatype QueryInfo = QueryInfo(id: nat, name: string, thesis: string, labelx: string, labely: string, end: int)

  datatype FirstLast = FirstLast(first: int, latest: int)

  /** `message.data`. Times are milliseconds; `currentTime` may be fractional. */
  datatype MessageData = MessageData(queryId: Option<int>, before: Option<int>, after: Option<int>, currentTime: real)

  /** An incoming message; the answer, comment and comment-opened types carry
      their fields at the top level, the others under `data`. */
  datatype Message = Message(
    msgType: string, x: Option<real>, y: Option<real>, comment: Option<string>,
    commentId: Option<nat>, parentCommentId: Option<nat>, data: MessageData)

  datatype QuerySummary = QuerySummary(id: nat, name: string, thesis: string, labelX: string, labelY: string, ends: int)

  /** Messages sent back to the client that sent the request. */
  datatype Reply =
    | Pong
    | CommentAdded(id: nat, comment: Option<string>, x: Option<real>, y: Option<real>, parentCommentId: Option<nat>)
    | QueriesFound(queries: seq<QuerySummary>)
    | QueryDuration(first: int, last: int)
    | AnswerFound(queryId: int, userHash: string, x: Option<real>, y: Option<real>, createdAt: int)
    | CommentFound(userHash: string, x: Option<real>, y: Option<real>, comment: Option<string>, commentId: nat,
                   isRootComment: bool, parent: Option<nat>, createdAt: int, updatedAt: int)
    | CommentToRemoveFound(commentId: nat)

  /** Events published on the message bus for all clients. */
  datatype Event = AnswerChanged(queryId: nat, answer: Answer) | CommentAddedEvent(comment: StoredComment)

  datatype LogEntry = OperationFailed(operation: string) | Warning(text: string) | Error(text: string)

  /** The store queries the handlers call, as an interface. */
  datatype StoreQueries = StoreQueries(
    queriesInProgress: seq<QueryInfo>,
    queryUsersOf: Option<int> -> seq<QueryUser>,
    firstAndLastAnswers: nat -> FirstLast,
    firstAnswerAndLastComment: (nat, Option<int>) -> Option<FirstLast>,
    latestBetween: (nat, int, int) -> Option<Answer>,
    latestLte: (nat, int) -> Option<Answer>,
    latestGte: (nat, int) -> Option<Answer>,
    commentsByTime: (int, int, nat) -> seq<StoredComment>,
    childComments: Option<nat> -> seq<StoredComment>,
    newerThan: (Option<int>, int) -> seq<StoredComment>)

  /** The records the handlers find and create. */
  datatype Store = Store(
    sessions: map<string, Session>, queryUsers: map<nat, QueryUser>,
    comments: map<nat, StoredComment>, answers: seq<Answer>, nextId: nat)

  /** `new Date(t).getTime()`: JavaScript truncates a fractional time toward zero. */
  function TimeValue(t: real): (ms: int)
    ensures 0.0 <= t ==> ms as real <= t < ms as real + 1.0
    ensures t < 0.0 ==> ms as real - 1.0 < t <= ms as real
  {
    if t >= 0.0 then t.Floor else -((-t).Floor)
  }

  /** The window `find-comments-by-time` searches: from the time to one second later. */
  function CommentWindow(t: real): (window: (int, int))
    ensures 0.0 <= t ==> window.1 == window.0 + 1000
  {
    (TimeValue(t), TimeValue(t + 1000.0))
  }

  function RenderId(id: Option<nat>): string {
    match id
    case Some(n) => NatToString(n)
    case None => "null"
  }

  // ---------------------------------------------------------------------
  // list-latest-answers

  datatype Lookup = Between(before: int, after: int) | Lte(before: int) | Gte(after: int)

  /** The guards of `listLatestAnswers`: no query id, or neither bound, is
      logged and nothing is looked up. Otherwise the bounds present choose
      the lookup. */
  function SelectLookup(data: MessageData): (r: Option<Lookup>)
    ensures r.None? <==> !TruthyInt(data.queryId) || (!TruthyInt(data.before) && !TruthyInt(data.after))
    ensures r.Some? && TruthyInt(data.before) && TruthyInt(data.after) ==> r.value == Between(data.before.value, data.after.value)
    ensures r.Some? && TruthyInt(data.before) && !TruthyInt(data.after) ==> r.value == Lte(data.before.value)
    ensures r.Some? && !TruthyInt(data.before) && TruthyInt(data.after) ==> r.value == Gte(data.after.value)
  {
    if !TruthyInt(data.queryId) then None
    else if !TruthyInt(data.before) && !TruthyInt(data.after) then None
    else if TruthyInt(data.before) && TruthyInt(data.after) then Some(Between(data.before.value, data.after.value))
    else if TruthyInt(data.before) then Some(Lte(data.before.value))
    else Some(Gte(data.after.value))
  }

  function LatestAnswer(q: StoreQueries, queryUserId: nat, lookup: Lookup): Option<Answer> {
    match lookup
    case Between(before, after) => q.latestBetween(queryUserId, before, after)
    case Lte(before) => q.latestLte(queryUserId, before)
    case Gte(after) => q.latestGte(queryUserId, after)
  }

  /** The `answer-found` replies, in query user order, for the users whose
      lookup found an answer. */
  function LatestAnswerReplies(q: StoreQueries, hash: string -> string, queryId: int, users: seq<QueryUser>, lookup: Lookup): (replies: seq<Reply>)
    ensures |replies| <= |users|
    ensures forall k :: 0 <= k < |replies| ==> replies[k].AnswerFound? && replies[k].queryId == queryId
    decreases |users|
  {
    if |users| == 0 then []
    else
      var u := users[|users| - 1];
      LatestAnswerReplies(q, hash, queryId, users[..|users| - 1], lookup) +
        match LatestAnswer(q, u.id, lookup)
        case Some(a) => [AnswerFound(queryId, hash(NatToString(u.id)), a.x, a.y, a.createdAt)]
        case None => []
  }

  /** The query users' `forEach` of `listLatestAnswers`. */
  method CollectLatestAnswers(q: StoreQueries, hash: string -> string, queryId: int, users: seq<QueryUser>, lookup: Lookup) returns (replies: seq<Reply>)
    ensures replies == LatestAnswerReplies(q, hash, queryId, users, lookup)
  {
    replies := [];
    var i := 0;
    while i < |users|
      invariant 0 <= i <= |users|
      invariant replies == LatestAnswerReplies(q, hash, queryId, users[..i], lookup)
    {
      var queryUser := users[i];
      var answer := LatestAnswer(q, queryUser.id, lookup);
      if answer.Some? {
        replies := replies + [AnswerFound(queryId, hash(NatToString(queryUser.id)), answer.value.x, answer.value.y, answer.value.createdAt)];
      }
      assert users[..i + 1][..i] == users[..i];
      i := i + 1;
    }
    assert users[..i] == users;
  }

  /** A query user is answered iff the lookup finds an answer, and then with
      the hash of their id's decimal string and that answer's values. */
  lemma {:induction false} LatestAnswerRepliesExact(q: StoreQueries, hash: string -> string, queryId: int, users: seq<QueryUser>, lookup: Lookup, k: nat)
    requires k < |users|
    ensures var a := LatestAnswer(q, users[k].id, lookup);
      var before := LatestAnswerReplies(q, hash, queryId, users[..k], lookup);
      var upTo := LatestAnswerReplies(q, hash, queryId, users[..k + 1], lookup);
      && (a.None? ==> upTo == before)
      && (a.Some? ==> upTo == before + [AnswerFound(queryId, hash(NatToString(users[k].id)), a.value.x, a.value.y, a.value.createdAt)])
  {
    assert users[..k + 1][..k] == users[..k];
  }

  /** The live pages hash the query user's id, not the user's id: with a
      collision-free hash, one participant's query users in two queries
      carry different pseudonyms, unlike in the exports. */
  lemma LivePseudonymPerQueryUser(hash: string -> string, u: QueryUser, v: QueryUser)
    requires forall s, t :: hash(s) == hash(t) ==> s == t
    requires u.userId == v.userId && u.id != v.id
    ensures hash(NatToString(u.id)) != hash(NatToString(v.id))
  {
    if hash(NatToString(u.id)) == hash(NatToString(v.id)) {
      NatToStringInjective(u.id, v.id);
    }
  }

  // ---------------------------------------------------------------------
  // find-comments-by-time and find-comments-to-remove-by-time

  /** The `comment-found` reply for a comment of a query user. */
  function CommentFoundReply(hash: string -> string, u: QueryUser, c: StoredComment): (r: Reply)
    ensures r.CommentFound? && r.commentId == c.id && r.userHash == hash(NatToString(u.id))
    ensures r.isRootComment <==> c.isRootComment == 1
    ensures r.parent.None? <==> c.parentCommentId.None? || c.parentCommentId.value == 0
    ensures r.parent.Some? ==> r.parent == c.parentCommentId
  {
    CommentFound(hash(NatToString(u.id)), c.x, c.y, c.comment, c.id, c.isRootComment == 1,
                 if TruthyInt(if c.parentCommentId.Some? then Some(c.parentCommentId.value as int) else None) then c.parentCommentId else None,
                 c.createdAt, c.updatedAt)
  }

  function CommentRepliesOf(hash: string -> string, u: QueryUser, comments: seq<StoredComment>): (replies: seq<Reply>)
    ensures |replies| == |comments|
    ensures forall k :: 0 <= k < |comments| ==> replies[k] == CommentFoundReply(hash, u, comments[k])
  {
    seq(|comments|, k requires 0 <= k < |comments| => CommentFoundReply(hash, u, comments[k]))
  }

  /** The replies of `findCommentsByTime`: for each query user in order, one
      per comment found in the window. */
  function CommentsByTimeReplies(q: StoreQueries, hash: string -> string, users: seq<QueryUser>, window: (int, int)): seq<Reply>
    decreases |users|
  {
    if |users| == 0 then []
    else
      var u := users[|users| - 1];
      CommentsByTimeReplies(q, hash, users[..|users| - 1], window) + CommentRepliesOf(hash, u, q.commentsByTime(window.0, window.1, u.id))
  }

  /** The nested `forEach` of `findCommentsByTime`. */
  method CollectCommentsByTime(q: StoreQueries, hash: string -> string, users: seq<QueryUser>, currentTime: real) returns (replies: seq<Reply>)
    ensures replies == CommentsByTimeReplies(q, hash, users, CommentWindow(currentTime))
  {
    var window := CommentWindow(currentTime);
    replies := [];
    var i := 0;
    while i < |users|
      invariant 0 <= i <= |users|
      invariant replies == CommentsByTimeReplies(q, hash, users[..i], window)
    {
      var queryUser := users[i];
      var comments := q.commentsByTime(window.0, window.1, queryUser.id);
      var head := replies;
      var j := 0;
      while j < |comments|
        invariant 0 <= j <= |comments|
        invariant replies == head + CommentRepliesOf(hash, queryUser, comments[..j])
      {
        replies := replies + [CommentFoundReply(hash, queryUser, comments[j])];
        assert CommentRepliesOf(hash, queryUser, comments[..j + 1]) == CommentRepliesOf(hash, queryUser, comments[..j]) + [CommentFoundReply(hash, queryUser, comments[j])];
        j := j + 1;
      }
      assert comments[..j] == comments;
      assert users[..i + 1][..i] == users[..i];
      i := i + 1;
    }
    assert users[..i] == users;
  }

  /** Every comment found is reported, with a root flag that is a boolean
      and a parent that is null exactly when the comment has none. */
  lemma {:induction false} CommentsByTimeRepliesShape(q: StoreQueries, hash: string -> string, users: seq<QueryUser>, window: (int, int))
    ensures forall r :: r in CommentsByTimeReplies(q, hash, users, window) ==>
      exists k, c :: 0 <= k < |users| && c in q.commentsByTime(window.0, window.1, users[k].id) && r == CommentFoundReply(hash, users[k], c)
    decreases |users|
  {
    if |users| > 0 {
      var n := |users| - 1;
      CommentsByTimeRepliesShape(q, hash, users[..n], window);
      forall r | r in CommentsByTimeReplies(q, hash, users, window)
        ensures exists k, c :: 0 <= k < |users| && c in q.commentsByTime(window.0, window.1, users[k].id) && r == CommentFoundReply(hash, users[k], c)
      {
        if r in CommentsByTimeReplies(q, hash, users[..n], window) {
          var k, c :| 0 <= k < |users[..n]| && c in q.commentsByTime(window.0, window.1, users[..n][k].id) && r == CommentFoundReply(hash, users[..n][k], c);
          assert users[k] == users[..n][k];
        } else {
          var cs := q.commentsByTime(window.0, window.1, users[n].id);
          var m :| 0 <= m < |cs| && CommentRepliesOf(hash, users[n], cs)[m] == r;
          assert cs[m] in cs;
        }
      }
    }
  }

  function RemoveReplies(comments: seq<StoredComment>): (replies: seq<Reply>)
    ensures |replies| == |comments|
    ensures forall k :: 0 <= k < |comments| ==> replies[k] == CommentToRemoveFound(comments[k].id)
  {
    seq(|comments|, k requires 0 <= k < |comments| => CommentToRemoveFound(comments[k].id))
  }

  /** `comment-opened`: one `comment-added` per child, in the order returned. */
  function ChildReplies(children: seq<StoredComment>): (replies: seq<Reply>)
    ensures |replies| == |children|
    ensures forall k :: 0 <= k < |children| ==>
      replies[k] == CommentAdded(children[k].id, children[k].comment, children[k].x, children[k].y, children[k].parentCommentId)
  {
    seq(|children|, k requires 0 <= k < |children| =>
      CommentAdded(children[k].id, children[k].comment, children[k].x, children[k].y, children[k].parentCommentId))
  }

  /** The `forEach` of `onCommentOpened` and of `findCommentsToRemoveByTime`:
      each reply is sent in the order of the store's list. */
  method SendEach(sent: seq<Reply>, replies: seq<Reply>) returns (after: seq<Reply>)
    ensures after == sent + replies
  {
    after := sent;
    var i := 0;
    while i < |replies|
      invariant 0 <= i <= |replies|
      invariant after == sent + replies[..i]
    {
      after := after + [replies[i]];
      assert replies[..i + 1] == replies[..i] + [replies[i]];
      i := i + 1;
    }
    assert replies[..i] == replies;
  }

  // ---------------------------------------------------------------------
  // Durations and active queries

  /** `getQueryDuration`: every query user's lookup, once resolved, sees the
      counter already at the number of users, so one reply is sent per
      query user, each from the first lookup to resolve (`allAnswers[0]`).
      Which one resolves first is the parameter `firstResolved`. */
  function QueryDurationReplies(q: StoreQueries, users: seq<QueryUser>, firstResolved: nat): (replies: seq<Reply>)
    ensures |replies| == |users|
    ensures |users| > 0 ==> forall k :: 0 <= k < |replies| ==>
      replies[k] == QueryDuration(q.firstAndLastAnswers(users[firstResolved % |users|].id).first,
                                  q.firstAndLastAnswers(users[firstResolved % |users|].id).latest)
  {
    if |users| == 0 then []
    else
      var fl := q.firstAndLastAnswers(users[firstResolved % |users|].id);
      seq(|users|, k requires 0 <= k < |users| => QueryDuration(fl.first, fl.latest))
  }

  /** `allAnswers.filter(...)[0]`: the first lookup that found something. */
  function FirstPresent(results: seq<Option<FirstLast>>): (r: Option<FirstLast>)
    ensures r.None? <==> forall k :: 0 <= k < |results| ==> results[k].None?
    ensures r.Some? ==> exists k :: 0 <= k < |results| && results[k] == r && forall j :: 0 <= j < k ==> results[j].None?
    decreases |results|
  {
    if |results| == 0 then None
    else if results[0].Some? then results[0]
    else
      var r := FirstPresent(results[1..]);
      assert forall k :: 1 <= k < |results| ==> results[k] == results[1..][k - 1];
      r
  }

  function QuerySummaryOf(query: QueryInfo): QuerySummary {
    QuerySummary(query.id, query.name, query.thesis, query.labelx, query.labely, query.end)
  }

  // ---------------------------------------------------------------------
  // The dispatcher

  /** The summaries `onListActiveQueries` sends: for each query in progress,
      in order, its id, name, thesis, axis labels and end. */
  function ActiveSummaries(inProgress: seq<QueryInfo>): (found: seq<QuerySummary>)
    ensures |found| == |inProgress|
    ensures forall k :: 0 <= k < |found| ==>
      && found[k].id == inProgress[k].id && found[k].name == inProgress[k].name
      && found[k].thesis == inProgress[k].thesis
      && found[k].labelX == inProgress[k].labelx && found[k].labelY == inProgress[k].labely
      && found[k].ends == inProgress[k].end
  {
    seq(|inProgress|, k requires 0 <= k < |inProgress| => QuerySummaryOf(inProgress[k]))
  }

  /** What `onAnswerChanged` does to the store, the bus and the log (from
      `s0`, `p0`, `l0` to `s1`, `p1`, `l1`): with the session's query user
      found, one answer is created and one `client:answer-changed` event
      published with that user's query; without it only a warning is
      logged; without a session the failure is logged. */
  ghost predicate AnswerChangedEffect(s0: Store, p0: seq<Event>, l0: seq<LogEntry>, s1: Store, p1: seq<Event>, l1: seq<LogEntry>,
                                      message: Message, sessionId: string, now: int)
  {
    && (sessionId !in s0.sessions ==>
          s1 == s0 && p1 == p0 && l1 == l0 + [OperationFailed("FIND_SESSION")])
    && (sessionId in s0.sessions ==>
          var qu := s0.sessions[sessionId].queryUserId;
          if qu.Some? && qu.value in s0.queryUsers then
            var answer := Answer(s0.nextId, qu.value, message.x, message.y, now);
            && s1 == s0.(answers := s0.answers + [answer], nextId := s0.nextId + 1)
            && p1 == p0 + [AnswerChanged(s0.queryUsers[qu.value].queryId, answer)]
            && l1 == l0
          else
            s1 == s0 && p1 == p0 && l1 == l0 + [Warning("QueryUser " + RenderId(qu) + " not found")])
  }

  /** What `onComment` does to the store, the bus and the log: the new
      comment is a root exactly when its parent is not found, and then has
      no parent; it belongs to the sender's query user and query, gets a
      fresh id, and one `client:comment-added` event is published. */
  ghost predicate CommentEffect(s0: Store, p0: seq<Event>, l0: seq<LogEntry>, s1: Store, p1: seq<Event>, l1: seq<LogEntry>,
                                message: Message, sessionId: string)
  {
    && (sessionId !in s0.sessions ==>
          s1 == s0 && p1 == p0 && l1 == l0 + [OperationFailed("FIND_SESSION")])
    && (sessionId in s0.sessions ==>
          var qu := s0.sessions[sessionId].queryUserId;
          if qu.Some? && qu.value in s0.queryUsers then
            var parentFound := message.parentCommentId.Some? && message.parentCommentId.value in s0.comments;
            var queryUser := s0.queryUsers[qu.value];
            && |p1| == |p0| + 1 && p1[..|p0|] == p0
            && p1[|p0|].CommentAddedEvent?
            && var c := p1[|p0|].comment;
            && c.id == s0.nextId && c.id !in s0.comments
            && (c.isRootComment == 1 <==> !parentFound)
            && (parentFound ==> c.parentCommentId == Some(s0.comments[message.parentCommentId.value].id))
            && (!parentFound ==> c.parentCommentId.None?)
            && c.queryUserId == queryUser.id && c.queryId == queryUser.queryId
            && c.comment == message.comment && c.x == message.x && c.y == message.y
            && s1 == s0.(comments := s0.comments[c.id := c], nextId := s0.nextId + 1)
            && l1 == l0
          else
            s1 == s0 && p1 == p0 && l1 == l0 + [OperationFailed("FIND_COMMENT")])
  }

  /** `createComment`'s stored root flag. */
  function RootFlag(isRootComment: bool): (flag: int)
    ensures flag == 1 <==> isRootComment
  {
    if isRootComment then 1 else 0
  }

  /** A stored comment is a root exactly when it has no parent. */
  ghost predicate RootIffNoParent(c: StoredComment) {
    c.isRootComment == 1 <==> c.parentCommentId.None?
  }

  /** Every comment is stored under its own id, and ids of comments and
      answers are below the next id the store hands out. */
  ghost predicate StoreIdsValid(store: Store) {
    && (forall id :: id in store.comments ==> store.comments[id].id == id && id < store.nextId)
    && (forall k :: 0 <= k < |store.answers| ==> store.answers[k].id < store.nextId)
  }

  class Dispatcher {
    var store: Store
    const queries: StoreQueries
    var published: seq<Event>
    var sent: seq<Reply>
    var log: seq<LogEntry>

    /** Every stored and every published comment is a root exactly when it
        has no parent, and record ids are below the next id. */
    ghost predicate Valid()
      reads this
    {
      && StoreIdsValid(store)
      && (forall id :: id in store.comments ==> RootIffNoParent(store.comments[id]))
      && (forall k :: 0 <= k < |published| && published[k].CommentAddedEvent? ==> RootIffNoParent(published[k].comment))
    }

    constructor (initial: Store, q: StoreQueries)
      requires StoreIdsValid(initial)
      requires forall id :: id in initial.comments ==> RootIffNoParent(initial.comments[id])
      ensures Valid() && store == initial && queries == q && published == [] && sent == [] && log == []
    {
      store := initial;
      queries := q;
      published := [];
      sent := [];
      log := [];
    }

    /** `onPing`: one `pong` to the sender; nothing else happens. */
    method OnPing()
      requires Valid()
      modifies this
      ensures Valid()
      ensures sent == old(sent) + [Pong]
      ensures store == old(store) && published == old(published) && log == old(log)
    {
      sent := sent + [Pong];
    }

    /** `onAnswerChanged`: with the session's query user found, one answer is
        created and one `client:answer-changed` event published with that
        user's query; without it only a warning is logged, and without a
        session the failure is logged. No reply is sent. */
    method OnAnswerChanged(message: Message, sessionId: string, now: int)
      requires Valid()
      modifies this
      ensures Valid()
      ensures sent == old(sent)
      ensures AnswerChangedEffect(old(store), old(published), old(log), store, published, log, message, sessionId, now)
    {
      if sessionId !in store.sessions {
        log := log + [OperationFailed("FIND_SESSION")];
        return;
      }
      var queryUserId := store.sessions[sessionId].queryUserId;
      if queryUserId.Some? && queryUserId.value in store.queryUsers {
        var queryUser := store.queryUsers[queryUserId.value];
        var answer := Answer(store.nextId, queryUserId.value, message.x, message.y, now);
        store := store.(answers := store.answers + [answer], nextId := store.nextId + 1);
        published := published + [AnswerChanged(queryUser.queryId, answer)];
      } else {
        log := log + [Warning("QueryUser " + RenderId(queryUserId) + " not found")];
      }
    }

    /** `onCommentOpened`: the children of the opened comment, in the order
        the store lists them, each as one `comment-added` to the requester only. */
    method OnCommentOpened(message: Message, sessionId: string)
      requires Valid()
      modifies this
      ensures Valid()
      ensures store == old(store) && published == old(published)
      ensures sessionId !in old(store).sessions ==> sent == old(sent) && log == old(log) + [OperationFailed("COMMENT_OPENED")]
      ensures sessionId in old(store).sessions ==>
        sent == old(sent) + ChildReplies(queries.childComments(message.commentId)) && log == old(log)
    {
      if sessionId !in store.sessions {
        log := log + [OperationFailed("COMMENT_OPENED")];
        return;
      }
      var childComments := queries.childComments(message.commentId);
      sent := SendEach(sent, ChildReplies(childComments));
    }

    /** `onComment`: the new comment is a root exactly when its parent is not
        found, and then has no parent; it belongs to the sender's query user
        and query; one `client:comment-added` event is published. */
    method OnComment(message: Message, sessionId: string, now: int)
      requires Valid()
      modifies this
      ensures Valid()
      ensures sent == old(sent)
      ensures CommentEffect(old(store), old(published), old(log), store, published, log, message, sessionId)
    {
      if sessionId !in store.sessions {
        log := log + [OperationFailed("FIND_SESSION")];
        return;
      }
      var queryUserId := store.sessions[sessionId].queryUserId;
      if !(queryUserId.Some? && queryUserId.value in store.queryUsers) {
        log := log + [OperationFailed("FIND_COMMENT")];
        return;
      }
      var queryUser := store.queryUsers[queryUserId.value];
      var parentComment: Option<StoredComment> :=
        if message.parentCommentId.Some? && message.parentCommentId.value in store.comments
        then Some(store.comments[message.parentCommentId.value]) else None;
      var isRootComment := parentComment.None?;
      var parentCommentId := if parentComment.Some? then Some(parentComment.value.id) else None;
      var comment := StoredComment(store.nextId, RootFlag(isRootComment), parentCommentId, queryUser.id, queryUser.queryId,
                                   message.comment, message.x, message.y, now, now);
      store := store.(comments := store.comments[comment.id := comment], nextId := store.nextId + 1);
      published := published + [CommentAddedEvent(comment)];
    }
    /** `onListActiveQueries`: one `queries-found` with every query in
        progress, each with its id, name, thesis, axis labels and end. */
    method OnListActiveQueries()
      requires Valid()
      modifies this
      ensures Valid()
      ensures sent == old(sent) + [QueriesFound(ActiveSummaries(queries.queriesInProgress))]
      ensures store == old(store) && published == old(published) && log == old(log)
    {
      sent := sent + [QueriesFound(ActiveSummaries(queries.queriesInProgress))];
    }

    /** `getQueryDuration`: one `query-duration` per query user, all from the
        lookup that resolved first; none for a query without users. */
    method OnFindQueryDuration(message: Message, firstResolved: nat)
      requires Valid()
      modifies this
      ensures Valid()
      ensures sent == old(sent) + QueryDurationReplies(queries, queries.queryUsersOf(message.data.queryId), firstResolved)
      ensures store == old(store) && published == old(published) && log == old(log)
    {
      var queryUsers := queries.queryUsersOf(message.data.queryId);
      sent := SendEach(sent, QueryDurationReplies(queries, queryUsers, firstResolved));
    }

    /** `getQueryCommentsDuration`: the first query user, in list order, for
        whom an answer and a comment were found gives the duration; when
        there is none the failure is logged. */
    method OnFindQueryCommentsDuration(message: Message)
      requires Valid()
      modifies this
      ensures Valid()
      ensures var users := queries.queryUsersOf(message.data.queryId);
        var found := FirstPresent(seq(|users|, k requires 0 <= k < |users| =>
                       queries.firstAnswerAndLastComment(users[k].id, message.data.queryId)));
        && (found.None? ==> sent == old(sent) && log == old(log) + [OperationFailed("GET_QUERY_COMMENTS_DURATION")])
        && (found.Some? ==> sent == old(sent) + [QueryDuration(found.value.first, found.value.latest)] && log == old(log))
      ensures store == old(store) && published == old(published)
    {
      var queryUsers := queries.queryUsersOf(message.data.queryId);
      var allAnswers := seq(|queryUsers|, k requires 0 <= k < |queryUsers| =>
                          queries.firstAnswerAndLastComment(queryUsers[k].id, message.data.queryId));
      var answerAndComment := FirstPresent(allAnswers);
      if answerAndComment.None? {
        log := log + [OperationFailed("GET_QUERY_COMMENTS_DURATION")];
      } else {
        sent := sent + [QueryDuration(answerAndComment.value.first, answerAndComment.value.latest)];
      }
    }

    /** `listLatestAnswers`: after the guards, one `answer-found` per query
        user of the query whose latest answer in the window exists. */
    method OnListLatestAnswers(message: Message, hash: string -> string)
      requires Valid()
      modifies this
      ensures Valid()
      ensures !TruthyInt(message.data.queryId) ==>
        sent == old(sent) && log == old(log) + [Error("Received list-latest-answers without queryId parameter")]
      ensures TruthyInt(message.data.queryId) && !TruthyInt(message.data.before) && !TruthyInt(message.data.after) ==>
        sent == old(sent) && log == old(log) + [Error("Received list-latest-answers without before and after parameters")]
      ensures SelectLookup(message.data).Some? ==>
        && sent == old(sent) + LatestAnswerReplies(queries, hash, message.data.queryId.value,
                                                   queries.queryUsersOf(message.data.queryId), SelectLookup(message.data).value)
        && log == old(log)
      ensures store == old(store) && published == old(published)
    {
      if !TruthyInt(message.data.queryId) {
        log := log + [Error("Received list-latest-answers without queryId parameter")];
        return;
      }
      var lookup := SelectLookup(message.data);
      if lookup.None? {
        log := log + [Error("Received list-latest-answers without before and after parameters")];
        return;
      }
      var queryUsers := queries.queryUsersOf(message.data.queryId);
      var replies := CollectLatestAnswers(queries, hash, message.data.queryId.value, queryUsers, lookup.value);
      sent := sent + replies;
    }

    /** `findCommentsByTime`: the comments created in the second starting at
        the playback time, per query user. */
    method OnFindCommentsByTime(message: Message, hash: string -> string)
      requires Valid()
      modifies this
      ensures Valid()
      ensures sent == old(sent) + CommentsByTimeReplies(queries, hash, queries.queryUsersOf(message.data.queryId),
                                                        CommentWindow(message.data.currentTime))
      ensures store == old(store) && published == old(published) && log == old(log)
    {
      var queryUsers := queries.queryUsersOf(message.data.queryId);
      var replies := CollectCommentsByTime(queries, hash, queryUsers, message.data.currentTime);
      sent := sent + replies;
    }

    /** `findCommentsToRemoveByTime`: one `comment-to-remove-found` per
        comment of the query newer than the playback time. */
    method OnFindCommentsToRemoveByTime(message: Message)
      requires Valid()
      modifies this
      ensures Valid()
      ensures sent == old(sent) + RemoveReplies(queries.newerThan(message.data.queryId, TimeValue(message.data.currentTime)))
      ensures store == old(store) && published == old(published) && log == old(log)
    {
      var comments := queries.newerThan(message.data.queryId, TimeValue(message.data.currentTime));
      sent := SendEach(sent, RemoveReplies(comments));
    }

    /** `onMessage`: the message type selects exactly one handler, and the
        dispatcher then has that handler's effect; an unknown type is logged
        and changes nothing else. */
    method OnMessage(message: Message, sessionId: string, hash: string -> string, now: int, firstResolved: nat)
      requires Valid()
      modifies this
      ensures Valid()
      ensures ParseType(message.msgType) == Ping ==>
        sent == old(sent) + [Pong] && store == old(store) && published == old(published) && log == old(log)
      ensures ParseType(message.msgType) == AnswerMsg ==>
        sent == old(sent) && AnswerChangedEffect(old(store), old(published), old(log), store, published, log, message, sessionId, now)
      ensures ParseType(message.msgType) == CommentOpened ==>
        && (sessionId !in old(store).sessions ==> sent == old(sent) && log == old(log) + [OperationFailed("COMMENT_OPENED")])
        && (sessionId in old(store).sessions ==> sent == old(sent) + ChildReplies(queries.childComments(message.commentId)) && log == old(log))
      ensures ParseType(message.msgType) == CommentMsg ==>
        sent == old(sent) && CommentEffect(old(store), old(published), old(log), store, published, log, message, sessionId)
      ensures ParseType(message.msgType) == ListActiveQueries ==>
        sent == old(sent) + [QueriesFound(ActiveSummaries(queries.queriesInProgress))] && log == old(log)
      ensures ParseType(message.msgType) == FindQueryDuration ==>
        && sent == old(sent) + QueryDurationReplies(queries, queries.queryUsersOf(message.data.queryId), firstResolved)
        && log == old(log)
      ensures ParseType(message.msgType) == FindQueryCommentsDuration ==>
        var users := queries.queryUsersOf(message.data.queryId);
        var found := FirstPresent(seq(|users|, k requires 0 <= k < |users| =>
                       queries.firstAnswerAndLastComment(users[k].id, message.data.queryId)));
        && (found.None? ==> sent == old(sent) && log == old(log) + [OperationFailed("GET_QUERY_COMMENTS_DURATION")])
        && (found.Some? ==> sent == old(sent) + [QueryDuration(found.value.first, found.value.latest)] && log == old(log))
      ensures ParseType(message.msgType) == ListLatestAnswers ==>
        && (!TruthyInt(message.data.queryId) ==>
              sent == old(sent) && log == old(log) + [Error("Received list-latest-answers without queryId parameter")])
        && (TruthyInt(message.data.queryId) && !TruthyInt(message.data.before) && !TruthyInt(message.data.after) ==>
              sent == old(sent) && log == old(log) + [Error("Received list-latest-answers without before and after parameters")])
        && (SelectLookup(message.data).Some? ==>
              && sent == old(sent) + LatestAnswerReplies(queries, hash, message.data.queryId.value,
                                                         queries.queryUsersOf(message.data.queryId), SelectLookup(message.data).value)
              && log == old(log))
      ensures ParseType(message.msgType) == FindCommentsByTime ==>
        && sent == old(sent) + CommentsByTimeReplies(queries, hash, queries.queryUsersOf(message.data.queryId),
                                                     CommentWindow(message.data.currentTime))
        && log == old(log)
      ensures ParseType(message.msgType) == FindCommentsToRemoveByTime ==>
        sent == old(sent) + RemoveReplies(queries.newerThan(message.data.queryId, TimeValue(message.data.currentTime))) && log == old(log)
      ensures ParseType(message.msgType).Unknown? ==>
        && store == old(store) && published == old(published) && sent == old(sent)
        && log == old(log) + [Error("Unknown message type " + message.msgType)]
      ensures ParseType(message.msgType) !in {MessageType.AnswerMsg, MessageType.CommentMsg} ==>
        store == old(store) && published == old(published)
    {
      match ParseType(message.msgType)
      case Ping => OnPing();
      case AnswerMsg => OnAnswerChanged(message, sessionId, now);
      case CommentOpened => OnCommentOpened(message, sessionId);
      case CommentMsg => OnComment(message, sessionId, now);
      case ListActiveQueries => OnListActiveQueries();
      case FindQueryDuration => OnFindQueryDuration(message, firstResolved);
      case FindQueryCommentsDuration => OnFindQueryCommentsDuration(message);
      case ListLatestAnswers => OnListLatestAnswers(message, hash);
      case FindCommentsByTime => OnFindCommentsByTime(message, hash);
      case FindCommentsToRemoveByTime => OnFindCommentsToRemoveByTime(message);
      case Unknown(name) => log := log + [Error("Unknown message type " + name)];
    }
  }
}
