/** Model of plugins/live-delphi-data-export/index.js: the three spreadsheet
    exports of a query (latest answers, every answer with its time, and the
    comment threads). Participants are pseudonymised by hashing their user
    id; the hash function is a parameter. The store reads the exports make
    are the fields of `Store`. Building the XLSX file itself is left out; a
    sheet is its name and its rows of cells. */
module DataExport {
  import opened Base

  datatype Query = Query(id: nat, name: string, labelx: string, labely: string)

  datatype QueryUser = QueryUser(id: nat, queryId: nat, userId: string)

  datatype Answer = Answer(x: real, y: real, createdAt: int)

  datatype Comment = Comment(id: int, parentCommentId: Option<int>, queryUserId: nat, x: real, y: real, comment: string)

  /** The export rejects: the query does not exist, or a comment's
      author could not be found and reading its user id threw. */
  datatype Failure = NotFound | AuthorMissing

  datatype Result<T> = Ok(value: T) | Err(failure: Failure)

  type Row = seq<Cell>

  datatype Export = Export(query: Query, rows: seq<Row>)

  datatype Sheet = Sheet(name: string, data: seq<Row>)

  /** The store reads of the exports: `findQuery`,
      `listQueryUsersByQueryIdAndUserIdNotNull`, `findLatestAnswerByQueryUser`,
      `listAnswersByQueryUserId`, `listCommentsByQueryId` and `findQueryUser`. */
  datatype Store = Store(
    queries: map<nat, Query>,
    queryUsersOf: nat -> seq<QueryUser>,
    latestAnswerOf: nat -> Option<Answer>,
    answersOf: nat -> seq<Answer>,
    commentsOf: nat -> seq<Comment>,
    queryUsers: map<nat, QueryUser>)

  // ---------------------------------------------------------------------
  // Latest answers

  /** A query user and the latest answer the store found for it, if any. */
  datatype AnswerData = AnswerData(queryUser: QueryUser, answer: Option<Answer>)

  /** `answer && answer.x && answer.y`: an answer exists and neither coordinate is 0. */
  predicate Kept(answer: Option<Answer>) {
    answer.Some? && answer.value.x != 0.0 && answer.value.y != 0.0
  }

  function LatestRow(hash: string -> string, d: AnswerData): Row
    requires d.answer.Some?
  {
    [Text(hash(d.queryUser.userId)), Number(d.answer.value.x), Number(d.answer.value.y)]
  }

  /** The latest-answer rows: one per query user whose latest answer is kept, in order. */
  function LatestRows(hash: string -> string, datas: seq<AnswerData>): (rows: seq<Row>)
    ensures |rows| <= |datas|
    ensures forall i :: 0 <= i < |rows| ==>
      exists j :: 0 <= j < |datas| && Kept(datas[j].answer) && rows[i] == LatestRow(hash, datas[j])
    decreases |datas|
  {
    if |datas| == 0 then []
    else
      var d := datas[|datas| - 1];
      var init := LatestRows(hash, datas[..|datas| - 1]);
      assert forall j :: 0 <= j < |datas| - 1 ==> datas[..|datas| - 1][j] == datas[j];
      init + (if Kept(d.answer) then [LatestRow(hash, d)] else [])
  }

  /** Every query user whose latest answer is kept has its row. */
  lemma {:induction false} LatestRowsComplete(hash: string -> string, datas: seq<AnswerData>, j: nat)
    requires j < |datas| && Kept(datas[j].answer)
    ensures LatestRow(hash, datas[j]) in LatestRows(hash, datas)
    decreases |datas|
  {
    if j < |datas| - 1 {
      LatestRowsComplete(hash, datas[..|datas| - 1], j);
    }
  }

  /** An answer with a zero coordinate, or no answer, gives no row. */
  lemma LatestRowsSkipDropped(hash: string -> string, datas: seq<AnswerData>, d: AnswerData)
    requires !Kept(d.answer)
    ensures LatestRows(hash, datas + [d]) == LatestRows(hash, datas)
  {
    assert (datas + [d])[..|datas|] == datas;
  }

  /** The `forEach` that pushes the latest-answer rows. */
  method CollectLatestRows(hash: string -> string, datas: seq<AnswerData>) returns (rows: seq<Row>)
    ensures rows == LatestRows(hash, datas)
  {
    rows := [];
    var i := 0;
    while i < |datas|
      invariant 0 <= i <= |datas|
      invariant rows == LatestRows(hash, datas[..i])
    {
      var d := datas[i];
      if d.answer.Some? && d.answer.value.x != 0.0 && d.answer.value.y != 0.0 {
        rows := rows + [[Text(hash(d.queryUser.userId)), Number(d.answer.value.x), Number(d.answer.value.y)]];
      }
      assert datas[..i + 1][..i] == datas[..i];
      i := i + 1;
    }
    assert datas[..i] == datas;
  }

  /** Each query user of the query with its latest answer, in the order the store lists them. */
  function LatestAnswerDatas(store: Store, queryId: nat): (datas: seq<AnswerData>)
    ensures |datas| == |store.queryUsersOf(queryId)|
    ensures forall i :: 0 <= i < |datas| ==>
      datas[i].queryUser == store.queryUsersOf(queryId)[i] && datas[i].answer == store.latestAnswerOf(datas[i].queryUser.id)
  {
    var queryUsers := store.queryUsersOf(queryId);
    seq(|queryUsers|, i requires 0 <= i < |queryUsers| => AnswerData(queryUsers[i], store.latestAnswerOf(queryUsers[i].id)))
  }

  /** `exportQueryLatestAnswerData`: rejects an unknown query, otherwise the
      query and the rows of its query users' latest answers. */
  method ExportQueryLatestAnswerData(store: Store, hash: string -> string, queryId: nat) returns (r: Result<Export>)
    ensures queryId !in store.queries <==> r == Err(NotFound)
    ensures r.Ok? ==> r.value.query == store.queries[queryId]
    ensures r.Ok? ==> r.value.rows == LatestRows(hash, LatestAnswerDatas(store, queryId))
  {
    if queryId !in store.queries {
      return Err(NotFound);
    }
    var query := store.queries[queryId];
    var datas := LatestAnswerDatas(store, queryId);
    var rows := CollectLatestRows(hash, datas);
    r := Ok(Export(query, rows));
  }

  // ---------------------------------------------------------------------
  // Answers with times

  datatype TimedAnswer = TimedAnswer(userHash: string, x: real, y: real, createdAt: int)

  /** A query user and all its answers. */
  datatype AnswersData = AnswersData(queryUser: QueryUser, answers: seq<Answer>)

  function Pseudonymised(userHash: string, answers: seq<Answer>): (timed: seq<TimedAnswer>)
    ensures |timed| == |answers|
    ensures forall i :: 0 <= i < |answers| ==>
      timed[i] == TimedAnswer(userHash, answers[i].x, answers[i].y, answers[i].createdAt)
  {
    seq(|answers|, i requires 0 <= i < |answers| => TimedAnswer(userHash, answers[i].x, answers[i].y, answers[i].createdAt))
  }

  /** The answers of every query user, query user by query user, each with its user's pseudonym. */
  function AllTimedAnswers(hash: string -> string, datas: seq<AnswersData>): (timed: seq<TimedAnswer>)
    decreases |datas|
  {
    if |datas| == 0 then []
    else
      var d := datas[|datas| - 1];
      AllTimedAnswers(hash, datas[..|datas| - 1]) + Pseudonymised(hash(d.queryUser.userId), d.answers)
  }

  /** The nested `forEach` that collects the answers with their pseudonyms. */
  method CollectTimedAnswers(hash: string -> string, datas: seq<AnswersData>) returns (answers: seq<TimedAnswer>)
    ensures answers == AllTimedAnswers(hash, datas)
  {
    answers := [];
    var i := 0;
    while i < |datas|
      invariant 0 <= i <= |datas|
      invariant answers == AllTimedAnswers(hash, datas[..i])
    {
      var userHash := hash(datas[i].queryUser.userId);
      var own := datas[i].answers;
      var j := 0;
      while j < |own|
        invariant 0 <= j <= |own|
        invariant answers == AllTimedAnswers(hash, datas[..i]) + Pseudonymised(userHash, own[..j])
      {
        answers := answers + [TimedAnswer(userHash, own[j].x, own[j].y, own[j].createdAt)];
        j := j + 1;
      }
      assert own[..j] == own;
      assert datas[..i + 1][..i] == datas[..i];
      i := i + 1;
    }
    assert datas[..i] == datas;
  }

  function CreatedAt(a: TimedAnswer): int {
    a.createdAt
  }

  predicate KeptTimed(a: TimedAnswer) {
    a.x != 0.0 && a.y != 0.0
  }

  function TimedRow(a: TimedAnswer): Row {
    [Time(a.createdAt), Text(a.userHash), Number(a.x), Number(a.y)]
  }

  /** The rows `[createdAt, userHash, x, y]` of the kept answers, in order. */
  function TimedRows(answers: seq<TimedAnswer>): (rows: seq<Row>)
    ensures |rows| <= |answers|
    ensures forall i :: 0 <= i < |rows| ==>
      exists j :: 0 <= j < |answers| && KeptTimed(answers[j]) && rows[i] == TimedRow(answers[j])
    decreases |answers|
  {
    if |answers| == 0 then []
    else
      var a := answers[|answers| - 1];
      var init := TimedRows(answers[..|answers| - 1]);
      assert forall j :: 0 <= j < |answers| - 1 ==> answers[..|answers| - 1][j] == answers[j];
      init + (if KeptTimed(a) then [TimedRow(a)] else [])
  }

  /** The time in the first cell of a row made by `TimedRow`. */
  function RowTime(row: Row): int {
    if |row| >= 1 && row[0].Time? then row[0].millis else 0
  }

  /** Rows taken in order from answers sorted by creation time are in
      ascending time order. */
  lemma {:induction false} TimedRowsAscending(answers: seq<TimedAnswer>)
    requires SortedBy(answers, CreatedAt)
    ensures SortedBy(TimedRows(answers), RowTime)
    decreases |answers|
  {
    if |answers| > 0 {
      var n := |answers|;
      var init := answers[..n - 1];
      assert SortedBy(init, CreatedAt) by {
        forall i, j | 0 <= i < j < |init| ensures CreatedAt(init[i]) <= CreatedAt(init[j]) {
          assert init[i] == answers[i] && init[j] == answers[j];
        }
      }
      TimedRowsAscending(init);
      var rows: seq<Row> := TimedRows(answers);
      var prior: seq<Row> := TimedRows(init);
      forall i: int, j: int | 0 <= i < j < |rows|
        ensures RowTime(rows[i]) <= RowTime(rows[j])
      {
        if j < |prior| {
          assert rows[i] == prior[i] && rows[j] == prior[j];
        } else {
          assert rows[j] == TimedRow(answers[n - 1]);
          assert rows[i] == prior[i];
          var k :| 0 <= k < |init| && KeptTimed(init[k]) && prior[i] == TimedRow(init[k]);
          assert init[k] == answers[k];
          assert CreatedAt(answers[k]) <= CreatedAt(answers[n - 1]);
        }
      }
    }
  }

  lemma TimedRowsSound(answers: seq<TimedAnswer>, i: nat)
    requires i < |TimedRows(answers)|
    ensures exists j :: 0 <= j < |answers| && KeptTimed(answers[j]) && TimedRows(answers)[i] == TimedRow(answers[j])
  {
  }

  /** Every kept answer has its row. */
  lemma {:induction false} TimedRowsComplete(answers: seq<TimedAnswer>, j: nat)
    requires j < |answers| && KeptTimed(answers[j])
    ensures TimedRow(answers[j]) in TimedRows(answers)
    decreases |answers|
  {
    if j < |answers| - 1 {
      TimedRowsComplete(answers[..|answers| - 1], j);
    }
  }

  /** Sort by creation time, then push the row of every kept answer. */
  method SortedTimedRows(answers: seq<TimedAnswer>) returns (rows: seq<Row>)
    ensures rows == TimedRows(SortBy(answers, CreatedAt))
  {
    var sorted := SortBy(answers, CreatedAt);
    rows := [];
    var i := 0;
    while i < |sorted|
      invariant 0 <= i <= |sorted|
      invariant rows == TimedRows(sorted[..i])
    {
      var a := sorted[i];
      if a.x != 0.0 && a.y != 0.0 {
        rows := rows + [[Time(a.createdAt), Text(a.userHash), Number(a.x), Number(a.y)]];
      }
      assert sorted[..i + 1][..i] == sorted[..i];
      i := i + 1;
    }
    assert sorted[..i] == sorted;
  }

  /** `row` is the row of one of the kept answers. */
  predicate RowOfKept(answers: seq<TimedAnswer>, row: Row) {
    exists a :: a in answers && KeptTimed(a) && row == TimedRow(a)
  }

  /** The timed rows are in ascending time order and hold a row for every
      answer with non-zero coordinates and nothing else. */
  lemma SortedTimedRowsProperties(answers: seq<TimedAnswer>)
    ensures var rows := TimedRows(SortBy(answers, CreatedAt));
      && SortedBy(rows, RowTime)
      && (forall a :: a in answers && KeptTimed(a) ==> TimedRow(a) in rows)
      && (forall i :: 0 <= i < |rows| ==> RowOfKept(answers, rows[i]))
  {
    var sorted := SortBy(answers, CreatedAt);
    SortBySorted(answers, CreatedAt);
    SortByPermutes(answers, CreatedAt);
    TimedRowsAscending(sorted);
    var rows: seq<Row> := TimedRows(sorted);
    forall a | a in answers && KeptTimed(a) ensures TimedRow(a) in rows {
      assert a in multiset(sorted);
      var j :| 0 <= j < |sorted| && sorted[j] == a;
      TimedRowsComplete(sorted, j);
    }
    forall i | 0 <= i < |rows| ensures RowOfKept(answers, rows[i]) {
      TimedRowsSound(sorted, i);
      var j :| 0 <= j < |sorted| && KeptTimed(sorted[j]) && rows[i] == TimedRow(sorted[j]);
      assert sorted[j] in multiset(answers);
      assert sorted[j] in answers && KeptTimed(sorted[j]) && rows[i] == TimedRow(sorted[j]);
    }
  }

  /** Every answer of a query user is among the collected timed answers,
      under the pseudonym of that query user's user id. */
  lemma {:induction false} AllTimedAnswersHolds(hash: string -> string, datas: seq<AnswersData>, k: nat, i: nat)
    requires k < |datas| && i < |datas[k].answers|
    ensures var a := datas[k].answers[i];
      TimedAnswer(hash(datas[k].queryUser.userId), a.x, a.y, a.createdAt) in AllTimedAnswers(hash, datas)
    decreases |datas|
  {
    var n := |datas|;
    if k < n - 1 {
      AllTimedAnswersHolds(hash, datas[..n - 1], k, i);
    } else {
      var d := datas[n - 1];
      var own := Pseudonymised(hash(d.queryUser.userId), d.answers);
      assert own[i] in own;
    }
  }

  /** Each query user of the query with all its answers, in the order the store lists them. */
  function AnswersDatas(store: Store, queryId: nat): (datas: seq<AnswersData>)
    ensures |datas| == |store.queryUsersOf(queryId)|
    ensures forall i :: 0 <= i < |datas| ==>
      datas[i].queryUser == store.queryUsersOf(queryId)[i] && datas[i].answers == store.answersOf(datas[i].queryUser.id)
  {
    var queryUsers := store.queryUsersOf(queryId);
    seq(|queryUsers|, i requires 0 <= i < |queryUsers| => AnswersData(queryUsers[i], store.answersOf(queryUsers[i].id)))
  }

  /** `exportQueryAnswerDataWithTimes`: rejects an unknown query, otherwise
      the rows of every answer of its query users, sorted by time. */
  method ExportQueryAnswerDataWithTimes(store: Store, hash: string -> string, queryId: nat) returns (r: Result<Export>)
    ensures queryId !in store.queries <==> r == Err(NotFound)
    ensures r.Ok? ==> r.value.query == store.queries[queryId]
    ensures r.Ok? ==> r.value.rows == TimedRows(SortBy(AllTimedAnswers(hash, AnswersDatas(store, queryId)), CreatedAt))
  {
    if queryId !in store.queries {
      return Err(NotFound);
    }
    var query := store.queries[queryId];
    var datas := AnswersDatas(store, queryId);
    var answers := CollectTimedAnswers(hash, datas);
    var rows := SortedTimedRows(answers);
    r := Ok(Export(query, rows));
  }

  /** A participant with a kept latest answer and a kept answer at some time
      appears in both answer exports under the same pseudonym: the hash of
      their user id, not of their query user id. */
  lemma ExportsSharePseudonym(store: Store, hash: string -> string, queryId: nat, k: nat, i: nat)
    requires k < |store.queryUsersOf(queryId)|
    requires Kept(store.latestAnswerOf(store.queryUsersOf(queryId)[k].id))
    requires i < |store.answersOf(store.queryUsersOf(queryId)[k].id)|
    requires store.answersOf(store.queryUsersOf(queryId)[k].id)[i].x != 0.0
    requires store.answersOf(store.queryUsersOf(queryId)[k].id)[i].y != 0.0
    ensures var u := store.queryUsersOf(queryId)[k];
      var l := store.latestAnswerOf(u.id).value;
      var a := store.answersOf(u.id)[i];
      && [Text(hash(u.userId)), Number(l.x), Number(l.y)] in LatestRows(hash, LatestAnswerDatas(store, queryId))
      && [Time(a.createdAt), Text(hash(u.userId)), Number(a.x), Number(a.y)]
           in TimedRows(SortBy(AllTimedAnswers(hash, AnswersDatas(store, queryId)), CreatedAt))
  {
    var u := store.queryUsersOf(queryId)[k];
    var latest := LatestAnswerDatas(store, queryId);
    LatestRowsComplete(hash, latest, k);
    var datas := AnswersDatas(store, queryId);
    AllTimedAnswersHolds(hash, datas, k, i);
    SortedTimedRowsProperties(AllTimedAnswers(hash, datas));
  }

  // ---------------------------------------------------------------------
  // Comment threads

  /** `comment.parentCommentId ? … : null`: a comment with a truthy parent id is a reply. */
  predicate IsReply(c: Comment) {
    TruthyInt(c.parentCommentId)
  }

  /** The comments that are not replies, in order. */
  function RootsOf(comments: seq<Comment>): (roots: seq<Comment>)
    ensures forall c :: c in roots ==> c in comments && !IsReply(c)
    decreases |comments|
  {
    if |comments| == 0 then []
    else
      var c := comments[|comments| - 1];
      RootsOf(comments[..|comments| - 1]) + (if IsReply(c) then [] else [c])
  }

  /** The replies to comment `parent`, in order. */
  function RepliesTo(comments: seq<Comment>, parent: int): (replies: seq<Comment>)
    ensures forall c :: c in replies ==> c in comments && IsReply(c) && c.parentCommentId.value == parent
    decreases |comments|
  {
    if |comments| == 0 then []
    else
      var c := comments[|comments| - 1];
      RepliesTo(comments[..|comments| - 1], parent) + (if IsReply(c) && c.parentCommentId.value == parent then [c] else [])
  }

  /** Every comment is placed: a root is among the roots, a reply among the
      replies to its parent. */
  lemma {:induction false} EveryCommentPlaced(comments: seq<Comment>, k: nat)
    requires k < |comments|
    ensures !IsReply(comments[k]) ==> comments[k] in RootsOf(comments)
    ensures IsReply(comments[k]) ==> comments[k] in RepliesTo(comments, comments[k].parentCommentId.value)
    decreases |comments|
  {
    if k < |comments| - 1 {
      EveryCommentPlaced(comments[..|comments| - 1], k);
    }
  }

  /** The `forEach` that splits comments into roots and replies keyed by parent id. */
  method ThreadComments(comments: seq<Comment>) returns (roots: seq<Comment>, replies: map<int, seq<Comment>>)
    ensures roots == RootsOf(comments)
    ensures forall p :: p in replies <==> RepliesTo(comments, p) != []
    ensures forall p :: p in replies ==> replies[p] == RepliesTo(comments, p)
  {
    roots := [];
    replies := map[];
    var i := 0;
    while i < |comments|
      invariant 0 <= i <= |comments|
      invariant roots == RootsOf(comments[..i])
      invariant forall p :: p in replies <==> RepliesTo(comments[..i], p) != []
      invariant forall p :: p in replies ==> replies[p] == RepliesTo(comments[..i], p)
    {
      var c := comments[i];
      assert comments[..i + 1][..i] == comments[..i];
      if c.parentCommentId.Some? && c.parentCommentId.value != 0 {
        var p := c.parentCommentId.value;
        if p !in replies {
          replies := replies[p := []];
        }
        replies := replies[p := replies[p] + [c]];
      } else {
        roots := roots + [c];
      }
      i := i + 1;
    }
    assert comments[..i] == comments;
  }

  /** A root comment with its `childComments`. */
  datatype Thread = Thread(root: Comment, childComments: seq<Comment>)

  /** The `forEach` that gives every root its replies, or `[]` when it has none. */
  method AttachReplies(roots: seq<Comment>, replies: map<int, seq<Comment>>) returns (threads: seq<Thread>)
    ensures |threads| == |roots|
    ensures forall i :: 0 <= i < |roots| ==> threads[i].root == roots[i]
    ensures forall i :: 0 <= i < |roots| ==>
      threads[i].childComments == if roots[i].id in replies then replies[roots[i].id] else []
  {
    threads := [];
    var i := 0;
    while i < |roots|
      invariant 0 <= i <= |roots|
      invariant |threads| == i
      invariant forall k :: 0 <= k < i ==> threads[k].root == roots[k]
      invariant forall k :: 0 <= k < i ==>
        threads[k].childComments == if roots[k].id in replies then replies[roots[k].id] else []
    {
      var children := if roots[i].id in replies then replies[roots[i].id] else [];
      threads := threads + [Thread(roots[i], children)];
      i := i + 1;
    }
  }

  /** Threading the comments of a query: the roots in input order, each with
      all its replies in input order. */
  method ThreadsOf(comments: seq<Comment>) returns (threads: seq<Thread>)
    ensures |threads| == |RootsOf(comments)|
    ensures forall i :: 0 <= i < |threads| ==>
      threads[i].root == RootsOf(comments)[i] && threads[i].childComments == RepliesTo(comments, threads[i].root.id)
  {
    var roots, replies := ThreadComments(comments);
    threads := AttachReplies(roots, replies);
  }

  /** A reply to a comment that is not a root (a reply to a reply, or to a
      comment of another query) belongs to no thread, so it gets no row. */
  lemma OrphanReplyInNoThread(comments: seq<Comment>, threads: seq<Thread>, c: Comment)
    requires |threads| == |RootsOf(comments)|
    requires forall i :: 0 <= i < |threads| ==>
      threads[i].root == RootsOf(comments)[i] && threads[i].childComments == RepliesTo(comments, threads[i].root.id)
    requires IsReply(c) && forall r :: r in RootsOf(comments) ==> r.id != c.parentCommentId.value
    ensures forall t :: t in threads ==> c !in t.childComments
  {
    forall t | t in threads ensures c !in t.childComments {
      var i :| 0 <= i < |threads| && threads[i] == t;
      assert t.root in RootsOf(comments);
    }
  }

  /** Whether every comment of the threads has a known author. */
  predicate AuthorsKnown(queryUsers: map<nat, QueryUser>, threads: seq<Thread>) {
    forall i :: 0 <= i < |threads| ==>
      threads[i].root.queryUserId in queryUsers &&
      forall j :: 0 <= j < |threads[i].childComments| ==> threads[i].childComments[j].queryUserId in queryUsers
  }

  function RootRow(hash: string -> string, queryUsers: map<nat, QueryUser>, c: Comment): Row
    requires c.queryUserId in queryUsers
  {
    [Text(hash(queryUsers[c.queryUserId].userId)), Number(c.x), Number(c.y), Text(c.comment), Null]
  }

  function ReplyRow(hash: string -> string, queryUsers: map<nat, QueryUser>, c: Comment): Row
    requires c.queryUserId in queryUsers
  {
    [Text(hash(queryUsers[c.queryUserId].userId)), Number(c.x), Number(c.y), Null, Text(c.comment)]
  }

  function ReplyRows(hash: string -> string, queryUsers: map<nat, QueryUser>, replies: seq<Comment>): (rows: seq<Row>)
    requires forall j :: 0 <= j < |replies| ==> replies[j].queryUserId in queryUsers
    ensures |rows| == |replies|
    ensures forall j :: 0 <= j < |replies| ==> rows[j] == ReplyRow(hash, queryUsers, replies[j])
    decreases |replies|
  {
    if |replies| == 0 then []
    else ReplyRows(hash, queryUsers, replies[..|replies| - 1]) + [ReplyRow(hash, queryUsers, replies[|replies| - 1])]
  }

  /** The rows of the threads: each root's row directly followed by the rows of its replies. */
  function CommentRows(hash: string -> string, queryUsers: map<nat, QueryUser>, threads: seq<Thread>): (rows: seq<Row>)
    requires AuthorsKnown(queryUsers, threads)
    decreases |threads|
  {
    if |threads| == 0 then []
    else
      var t := threads[|threads| - 1];
      CommentRows(hash, queryUsers, threads[..|threads| - 1]) + [RootRow(hash, queryUsers, t.root)] + ReplyRows(hash, queryUsers, t.childComments)
  }

  /** The number of rows is the number of roots plus the number of their replies. */
  function ThreadSize(threads: seq<Thread>): nat
    decreases |threads|
  {
    if |threads| == 0 then 0 else ThreadSize(threads[..|threads| - 1]) + 1 + |threads[|threads| - 1].childComments|
  }

  lemma {:induction false} CommentRowsCount(hash: string -> string, queryUsers: map<nat, QueryUser>, threads: seq<Thread>)
    requires AuthorsKnown(queryUsers, threads)
    ensures |CommentRows(hash, queryUsers, threads)| == ThreadSize(threads)
    decreases |threads|
  {
    if |threads| > 0 {
      CommentRowsCount(hash, queryUsers, threads[..|threads| - 1]);
    }
  }

  /** Appending a thread appends its root row and then its reply rows. */
  lemma CommentRowsOfLastThread(hash: string -> string, queryUsers: map<nat, QueryUser>, threads: seq<Thread>, t: Thread)
    requires AuthorsKnown(queryUsers, threads + [t])
    ensures AuthorsKnown(queryUsers, threads)
    ensures var rows := CommentRows(hash, queryUsers, threads + [t]);
      var n := |CommentRows(hash, queryUsers, threads)|;
      && |rows| == n + 1 + |t.childComments|
      && rows[n] == RootRow(hash, queryUsers, t.root)
      && forall j :: 0 <= j < |t.childComments| ==> rows[n + 1 + j] == ReplyRow(hash, queryUsers, t.childComments[j])
  {
    assert (threads + [t])[..|threads|] == threads;
    assert forall i :: 0 <= i < |threads| ==> (threads + [t])[i] == threads[i];
  }

  /** The nested `forEach` that pushes a row per root and per reply. Reading
      the user id of a comment whose author was not found throws, and the
      export rejects. */
  method CollectCommentRows(hash: string -> string, queryUsers: map<nat, QueryUser>, threads: seq<Thread>) returns (r: Result<seq<Row>>)
    ensures r.Ok? <==> AuthorsKnown(queryUsers, threads)
    ensures r.Err? ==> r.failure == AuthorMissing
    ensures r.Ok? ==> r.value == CommentRows(hash, queryUsers, threads)
  {
    var rows: seq<Row> := [];
    var i := 0;
    while i < |threads|
      invariant 0 <= i <= |threads|
      invariant AuthorsKnown(queryUsers, threads[..i])
      invariant rows == CommentRows(hash, queryUsers, threads[..i])
    {
      var t := threads[i];
      if t.root.queryUserId !in queryUsers {
        return Err(AuthorMissing);
      }
      rows := rows + [[Text(hash(queryUsers[t.root.queryUserId].userId)), Number(t.root.x), Number(t.root.y), Text(t.root.comment), Null]];
      var j := 0;
      while j < |t.childComments|
        invariant 0 <= j <= |t.childComments|
        invariant forall k :: 0 <= k < j ==> t.childComments[k].queryUserId in queryUsers
        invariant rows == CommentRows(hash, queryUsers, threads[..i]) + [RootRow(hash, queryUsers, t.root)]
          + ReplyRows(hash, queryUsers, t.childComments[..j])
      {
        var c := t.childComments[j];
        if c.queryUserId !in queryUsers {
          return Err(AuthorMissing);
        }
        assert t.childComments[..j + 1][..j] == t.childComments[..j];
        rows := rows + [[Text(hash(queryUsers[c.queryUserId].userId)), Number(c.x), Number(c.y), Null, Text(c.comment)]];
        j := j + 1;
      }
      assert t.childComments[..j] == t.childComments;
      assert threads[..i + 1] == threads[..i] + [t];
      assert threads[..i + 1][..i] == threads[..i];
      i := i + 1;
    }
    assert threads[..i] == threads;
    r := Ok(rows);
  }

  /** `exportQueryComments`: rejects an unknown query; otherwise the rows of
      its comment threads, or a rejection when a comment's author is missing. */
  method ExportQueryComments(store: Store, hash: string -> string, queryId: nat) returns (r: Result<Export>)
    ensures queryId !in store.queries <==> r == Err(NotFound)
    ensures r.Ok? ==> r.value.query == store.queries[queryId]
    ensures r.Ok? ==> exists threads: seq<Thread> ::
      && |threads| == |RootsOf(store.commentsOf(queryId))|
      && (forall i :: 0 <= i < |threads| ==>
            threads[i].root == RootsOf(store.commentsOf(queryId))[i] &&
            threads[i].childComments == RepliesTo(store.commentsOf(queryId), threads[i].root.id))
      && AuthorsKnown(store.queryUsers, threads)
      && r.value.rows == CommentRows(hash, store.queryUsers, threads)
  {
    if queryId !in store.queries {
      return Err(NotFound);
    }
    var query := store.queries[queryId];
    var threads := ThreadsOf(store.commentsOf(queryId));
    var rows := CollectCommentRows(hash, store.queryUsers, threads);
    if rows.Err? {
      return Err(AuthorMissing);
    }
    r := Ok(Export(query, rows.value));
  }

  // ---------------------------------------------------------------------
  // Sheets

  function LatestAnswersHeader(query: Query): Row {
    [Text("Vastaajan tunniste"), Text(query.labelx), Text(query.labely)]
  }

  function WithTimesHeader(query: Query): Row {
    [Text("Vastausaika"), Text("Vastaajan tunniste"), Text(query.labelx), Text(query.labely)]
  }

  function CommentsHeader(query: Query): Row {
    [Text("Vastaajan tunniste"), Text(query.labelx), Text(query.labely), Text("Aloituskommentti"), Text("Vastaus")]
  }

  /** A sheet is one header row followed by the export's rows. */
  function SheetOf(name: string, header: Row, exported: Export): (sheet: Sheet)
    ensures sheet.name == name
    ensures |sheet.data| == 1 + |exported.rows|
    ensures sheet.data[0] == header && sheet.data[1..] == exported.rows
  {
    Sheet(name, [header] + exported.rows)
  }

  /** The sheets of the three XLSX exports; their header names the query's axis labels. */
  function LatestAnswersSheet(exported: Export): (sheet: Sheet)
    ensures |sheet.data| == 1 + |exported.rows| && |sheet.data[0]| == 3
    ensures sheet.data[0][1] == Text(exported.query.labelx) && sheet.data[0][2] == Text(exported.query.labely)
    ensures sheet.data[1..] == exported.rows
  {
    SheetOf("Vastaukset", LatestAnswersHeader(exported.query), exported)
  }

  function WithTimesSheet(exported: Export): (sheet: Sheet)
    ensures |sheet.data| == 1 + |exported.rows| && |sheet.data[0]| == 4
    ensures sheet.data[0][2] == Text(exported.query.labelx) && sheet.data[0][3] == Text(exported.query.labely)
    ensures sheet.data[1..] == exported.rows
  {
    SheetOf("Vastaukset", WithTimesHeader(exported.query), exported)
  }

  function CommentsSheet(exported: Export): (sheet: Sheet)
    ensures |sheet.data| == 1 + |exported.rows| && |sheet.data[0]| == 5
    ensures sheet.data[0][1] == Text(exported.query.labelx) && sheet.data[0][2] == Text(exported.query.labely)
    ensures sheet.data[1..] == exported.rows
  {
    SheetOf("Kommentit", CommentsHeader(exported.query), exported)
  }
}
