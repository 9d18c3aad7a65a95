/** Model of client-src/js/live-query-comments.js: the page that lists the
    root comments of a live query in four quadrant containers. The page asks
    for the existing comments once connected, adds a batch or a single
    comment by prepending it to its quadrant's container, then re-orders the
    container by creation time. The containers are a map from the
    container's selector to the entries it shows, in document order. */
module LiveQueryComments {
  import opened Base
  import FinishedQueryCommentPlayback

  /** The four containers, by selector. */
  const ContainerNames: set<string> := {".comments-1", ".comments-2", ".comments-3", ".comments-4"}

  /** A shown root comment: the attributes of its element. */
  datatype Entry = Entry(id: nat, comment: Option<string>, color: FinishedQueryCommentPlayback.Rgb,
                         x: real, y: real, createdAt: int)

  /** A comment as the server sends it. */
  datatype Incoming = Incoming(id: nat, parentCommentId: Option<int>, x: real, y: real,
                               createdAt: int, comment: Option<string>)

  datatype Request = ListRootCommentsByQuery(queryId: Option<int>, resultMode: string)

  /** The type of the initial-load request. */
  const ListRootCommentsType: string := "list-root-comments-by-query"

  function CreatedAt(e: Entry): int {
    e.createdAt
  }

  function EntryOf(c: Incoming): Entry {
    Entry(c.id, c.comment, FinishedQueryCommentPlayback.CommentColor(c.x, c.y), c.x, c.y, c.createdAt)
  }

  /** A comment is shown only when its parent id is falsy. */
  predicate IsRoot(c: Incoming) {
    !TruthyInt(c.parentCommentId)
  }

  function ContainerOf(c: Incoming): (name: string)
    ensures name in ContainerNames
  {
    FinishedQueryCommentPlayback.CreateClassName(c.x, c.y)
  }

  ghost predicate ContainersPresent(board: map<string, seq<Entry>>) {
    forall n :: n in ContainerNames ==> n in board
  }

  /** Every shown entry sits in the container of its own quadrant and has
      the colour of its position. */
  ghost predicate Placed(board: map<string, seq<Entry>>) {
    forall n, e :: n in board && e in board[n] ==>
      FinishedQueryCommentPlayback.CreateClassName(e.x, e.y) == n
      && e.color == FinishedQueryCommentPlayback.CommentColor(e.x, e.y)
  }

  /** `_addComment`: a reply is ignored; a root comment is prepended to its
      quadrant's container and every other container is left alone. */
  function AddComment(board: map<string, seq<Entry>>, c: Incoming): (r: map<string, seq<Entry>>)
    requires ContainersPresent(board)
    ensures ContainersPresent(r) && r.Keys == board.Keys
    ensures !IsRoot(c) ==> r == board
    ensures IsRoot(c) ==> r[ContainerOf(c)] == [EntryOf(c)] + board[ContainerOf(c)]
    ensures forall n :: n in board && n != ContainerOf(c) ==> r[n] == board[n]
    ensures Placed(board) ==> Placed(r)
  {
    if !IsRoot(c) then board
    else board[ContainerOf(c) := [EntryOf(c)] + board[ContainerOf(c)]]
  }

  /** The comments of a batch added one after the other. */
  function AddAll(board: map<string, seq<Entry>>, cs: seq<Incoming>): (r: map<string, seq<Entry>>)
    requires ContainersPresent(board)
    ensures ContainersPresent(r) && r.Keys == board.Keys
    ensures Placed(board) ==> Placed(r)
    decreases |cs|
  {
    if |cs| == 0 then board else AddComment(AddAll(board, cs[..|cs| - 1]), cs[|cs| - 1])
  }

  /** The entries a batch contributes to one container. */
  function RootsFor(cs: seq<Incoming>, name: string): seq<Entry>
    decreases |cs|
  {
    if |cs| == 0 then []
    else
      var c := cs[|cs| - 1];
      RootsFor(cs[..|cs| - 1], name) + (if IsRoot(c) && ContainerOf(c) == name then [EntryOf(c)] else [])
  }

  /** After a batch, a container holds what it held plus exactly the root
      comments of its quadrant: no comment is lost, duplicated or misplaced. */
  lemma {:induction false} AddAllContents(board: map<string, seq<Entry>>, cs: seq<Incoming>, name: string)
    requires ContainersPresent(board) && name in board
    ensures multiset(AddAll(board, cs)[name]) == multiset(board[name]) + multiset(RootsFor(cs, name))
    decreases |cs|
  {
    if |cs| > 0 {
      var prefix := cs[..|cs| - 1];
      AddAllContents(board, prefix, name);
    }
  }

  /** `_sortCommentContainerElements` on every container. */
  function SortAll(board: map<string, seq<Entry>>): (r: map<string, seq<Entry>>)
    ensures r.Keys == board.Keys
    ensures forall n :: n in board ==> r[n] == SortBy(board[n], CreatedAt)
  {
    map n | n in board :: SortBy(board[n], CreatedAt)
  }

  /** Sorting a container re-orders it by creation time and keeps its entries. */
  lemma SortContainer(board: map<string, seq<Entry>>, name: string)
    requires name in board
    ensures SortedBy(SortBy(board[name], CreatedAt), CreatedAt)
    ensures multiset(SortBy(board[name], CreatedAt)) == multiset(board[name])
  {
    SortBySorted(board[name], CreatedAt);
    SortByPermutes(board[name], CreatedAt);
  }

  lemma SortKeepsPlaced(board: map<string, seq<Entry>>, name: string)
    requires Placed(board) && name in board
    ensures Placed(board[name := SortBy(board[name], CreatedAt)])
  {
    var sorted := SortBy(board[name], CreatedAt);
    SortByPermutes(board[name], CreatedAt);
    forall e | e in sorted
      ensures e in board[name]
    {
      assert e in multiset(sorted);
    }
  }

  lemma SortAllKeepsPlaced(board: map<string, seq<Entry>>)
    requires Placed(board)
    ensures Placed(SortAll(board))
  {
    forall n, e | n in SortAll(board) && e in SortAll(board)[n]
      ensures FinishedQueryCommentPlayback.CreateClassName(e.x, e.y) == n
      ensures e.color == FinishedQueryCommentPlayback.CommentColor(e.x, e.y)
    {
      SortKeepsPlaced(board, n);
      assert e in board[n := SortBy(board[n], CreatedAt)][n];
    }
  }

  /** After a batch and the sort, every container is in creation order and
      holds its previous entries plus the batch's roots of its quadrant. */
  lemma BatchShowsRootsInOrder(board: map<string, seq<Entry>>, cs: seq<Incoming>, name: string)
    requires ContainersPresent(board) && name in board
    ensures var shown := SortAll(AddAll(board, cs))[name];
      && SortedBy(shown, CreatedAt)
      && multiset(shown) == multiset(board[name]) + multiset(RootsFor(cs, name))
  {
    AddAllContents(board, cs, name);
    SortContainer(AddAll(board, cs), name);
  }

  class LiveComments {
    var containers: map<string, seq<Entry>>
    var loading: bool
    var sent: seq<Request>
    var dialog: Option<Entry>
    const queryId: Option<int>

    ghost predicate Valid()
      reads this
    {
      ContainersPresent(containers) && Placed(containers)
    }

    /** `_create`: empty containers marked as loading. */
    constructor (pageQueryId: Option<int>)
      ensures Valid()
      ensures containers == map n | n in ContainerNames :: []
      ensures loading && sent == [] && dialog.None? && queryId == pageQueryId
    {
      containers := map n | n in ContainerNames :: [];
      loading := true;
      sent := [];
      dialog := None;
      queryId := pageQueryId;
    }

    /** `_onConnect`: the page asks for the query's root comments in one batch. */
    method OnConnect()
      modifies this
      ensures sent == old(sent) + [ListRootCommentsByQuery(queryId, "batch")]
      ensures containers == old(containers) && loading == old(loading) && dialog == old(dialog)
    {
      sent := sent + [ListRootCommentsByQuery(queryId, "batch")];
    }

    /** `_onMessageCommentsAdded`: every comment added in order, every
        container sorted, the loading mark removed. */
    method OnCommentsAdded(comments: seq<Incoming>)
      requires Valid()
      modifies this
      ensures Valid()
      ensures containers == SortAll(AddAll(old(containers), comments))
      ensures !loading
      ensures sent == old(sent) && dialog == old(dialog)
    {
      var board := containers;
      var i := 0;
      while i < |comments|
        invariant 0 <= i <= |comments|
        invariant board == AddAll(containers, comments[..i])
      {
        assert comments[..i + 1][..i] == comments[..i];
        board := AddComment(board, comments[i]);
        i := i + 1;
      }
      assert comments[..i] == comments;
      SortAllKeepsPlaced(board);
      containers := SortAll(board);
      loading := false;
    }

    /** `_onMessageCommentAdded`: the comment is added and its quadrant's
        container re-sorted. */
    method OnCommentAdded(c: Incoming)
      requires Valid()
      modifies this
      ensures Valid()
      ensures var added := AddComment(old(containers), c);
        containers == added[ContainerOf(c) := SortBy(added[ContainerOf(c)], CreatedAt)]
      ensures loading == old(loading) && sent == old(sent) && dialog == old(dialog)
    {
      containers := AddComment(containers, c);
      var name := ContainerOf(c);
      SortKeepsPlaced(containers, name);
      containers := containers[name := SortBy(containers[name], CreatedAt)];
    }

    /** `_onCommentContainerClick`: the dialog shows the clicked comment with
        the colour recomputed from its position, which is the colour it is
        shown with. */
    method OnCommentContainerClick(name: string, k: nat)
      requires Valid()
      requires name in containers && k < |containers[name]|
      modifies this
      ensures Valid()
      ensures dialog == Some(old(containers)[name][k])
      ensures containers == old(containers) && loading == old(loading) && sent == old(sent)
    {
      var e := containers[name][k];
      dialog := Some(Entry(e.id, e.comment, FinishedQueryCommentPlayback.CommentColor(e.x, e.y), e.x, e.y, e.createdAt));
    }
  }
}
