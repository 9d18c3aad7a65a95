/** Model of client-src/js/finished-query-comment-playback.js: the replay of
    a finished query's comments. It has the same slider, play/pause and
    one-second tick state machine as the answer playback, asks the server
    for comments (and for comments to remove) at the current time, and keeps
    a board of root comment boxes, each with its replies. The board is the
    part of the page the handlers read and write: root boxes are prepended
    to one of four quadrant containers, replies appended to their root box. */
module FinishedQueryCommentPlayback {
  import opened Base
  import QueryUtils
  import Analysis
  import FinishedQueryPlayback

  // ---------------------------------------------------------------------
  // Quadrants and colours

  /** `_createClassName`: the container of a root comment, by `x <= 3` and `y <= 3`. */
  function CreateClassName(x: real, y: real): (className: string)
    ensures className == ".comments-3" <==> x <= 3.0 && y <= 3.0
    ensures className == ".comments-1" <==> x <= 3.0 && y > 3.0
    ensures className == ".comments-2" <==> x > 3.0 && y > 3.0
    ensures className == ".comments-4" <==> x > 3.0 && y <= 3.0
  {
    if x <= 3.0 && y <= 3.0 then ".comments-3"
    else if x <= 3.0 && y > 3.0 then ".comments-1"
    else if x > 3.0 && y > 3.0 then ".comments-2"
    else ".comments-4"
  }

  /** The client and the server draw the quadrant borders differently: a
      comment at x = 3.25 is on the high side here (`x > 3`) but on the low
      side of the server's report and analysis (`x > 7/2`). */
  lemma ClientAndServerQuadrantsDiffer(y: real)
    ensures CreateClassName(3.25, y) in {".comments-2", ".comments-4"}
    ensures Analysis.Side(3.25) == 0
  {
  }

  datatype Rgb = Rgb(red: int, green: int, blue: int)

  /** `_getColor`: `rgb(red, 50, blue)` with red from x and blue from y over 0..6. */
  function CommentColor(x: real, y: real): (c: Rgb)
    ensures 0 <= c.red <= 255 && 0 <= c.blue <= 255 && c.green == 50
    ensures c.red == QueryUtils.GetColor(None, None, x, y, 6.0, 6.0, None, None).r
    ensures c.blue == QueryUtils.GetColor(None, None, x, y, 6.0, 6.0, None, None).b
  {
    QueryUtils.GetColorDefaults(x, y, 6.0, 6.0);
    Rgb(QueryUtils.Intensity(x, 6.0), 50, QueryUtils.Intensity(y, 6.0))
  }

  // ---------------------------------------------------------------------
  // The board

  datatype Child = Child(id: int, comment: string)

  datatype RootBox = RootBox(id: int, container: string, color: Rgb, comment: string, children: seq<Child>)

  /** The root boxes on the page, newest first. */
  datatype Board = Board(roots: seq<RootBox>)

  /** `$('div[data-comment-id=id]').length > 0`. */
  predicate HasRoot(board: Board, id: int) {
    exists k :: 0 <= k < |board.roots| && board.roots[k].id == id
  }

  /** `$('p[data-comment-id=id]').length > 0`. */
  predicate HasChild(board: Board, id: int) {
    exists k, j :: 0 <= k < |board.roots| && 0 <= j < |board.roots[k].children| && board.roots[k].children[j].id == id
  }

  /** `$('.child-comments-' + parent).append(...)`: appends to the reply list
      of the root box with that id; with no such box (or no parent) nothing changes. */
  function AppendChild(roots: seq<RootBox>, parent: Option<int>, child: Child): (r: seq<RootBox>)
    ensures |r| == |roots|
    ensures forall k :: 0 <= k < |roots| ==> r[k].id == roots[k].id && r[k].container == roots[k].container
    ensures forall k :: 0 <= k < |roots| ==>
      r[k].children == roots[k].children + (if parent == Some(roots[k].id) then [child] else [])
  {
    seq(|roots|, k requires 0 <= k < |roots| =>
      if parent == Some(roots[k].id) then roots[k].(children := roots[k].children + [child]) else roots[k])
  }

  /** A comment as found by `find-comments-by-time`. */
  datatype FoundComment = FoundComment(x: real, y: real, comment: string, commentId: int,
                                       isRootComment: bool, parent: Option<int>, createdAt: int)

  /** `_prepareComment`: a root is added, to the front of its quadrant,
      unless a root box with its id exists; a reply is appended to its
      parent's box unless a reply with its id exists. */
  function PrepareComment(board: Board, c: FoundComment): (r: Board)
    ensures c.isRootComment && HasRoot(board, c.commentId) ==> r == board
    ensures c.isRootComment && !HasRoot(board, c.commentId) ==>
      r.roots == [RootBox(c.commentId, CreateClassName(c.x, c.y), CommentColor(c.x, c.y), c.comment, [])] + board.roots
    ensures !c.isRootComment && HasChild(board, c.commentId) ==> r == board
    ensures !c.isRootComment && !HasChild(board, c.commentId) ==>
      r.roots == AppendChild(board.roots, c.parent, Child(c.commentId, c.comment))
  {
    if c.isRootComment then
      if HasRoot(board, c.commentId) then board
      else Board([RootBox(c.commentId, CreateClassName(c.x, c.y), CommentColor(c.x, c.y), c.comment, [])] + board.roots)
    else
      if HasChild(board, c.commentId) then board
      else Board(AppendChild(board.roots, c.parent, Child(c.commentId, c.comment)))
  }

  /** Receiving the same comment again changes nothing. */
  lemma PrepareCommentIdempotent(board: Board, c: FoundComment)
    ensures PrepareComment(PrepareComment(board, c), c) == PrepareComment(board, c)
  {
    var once := PrepareComment(board, c);
    if c.isRootComment {
      if !HasRoot(board, c.commentId) {
        assert once.roots[0].id == c.commentId;
      }
    } else if !HasChild(board, c.commentId) {
      if k :| 0 <= k < |board.roots| && c.parent == Some(board.roots[k].id) {
        var j := |board.roots[k].children|;
        assert once.roots[k].children[j].id == c.commentId;
      } else {
        assert once.roots == board.roots;
      }
    }
  }

  /** After a comment is prepared its box or reply is on the board, unless it
      is a reply whose parent box is not. */
  lemma PrepareCommentShows(board: Board, c: FoundComment)
    ensures c.isRootComment ==> HasRoot(PrepareComment(board, c), c.commentId)
    ensures !c.isRootComment && c.parent.Some? && HasRoot(board, c.parent.value) ==>
      HasChild(PrepareComment(board, c), c.commentId)
    ensures !c.isRootComment && !HasChild(board, c.commentId) && (c.parent.None? || !HasRoot(board, c.parent.value)) ==>
      PrepareComment(board, c) == board
  {
    var once := PrepareComment(board, c);
    if c.isRootComment {
      if !HasRoot(board, c.commentId) {
        assert once.roots[0].id == c.commentId;
      }
    } else if !HasChild(board, c.commentId) {
      if c.parent.Some? && HasRoot(board, c.parent.value) {
        var k :| 0 <= k < |board.roots| && board.roots[k].id == c.parent.value;
        var j := |board.roots[k].children|;
        assert once.roots[k].children[j].id == c.commentId;
      } else {
        assert once.roots == board.roots;
      }
    }
  }

  /** `_onCommentToRemoveFound`: removes the root boxes with the id (and their
      replies with them); a reply's own element is not matched. */
  function RemoveRoot(board: Board, id: int): (r: Board)
    ensures !HasRoot(r, id)
    ensures forall b :: b in r.roots <==> b in board.roots && b.id != id
    ensures r.roots == Filter(board.roots, (b: RootBox) => b.id != id)
    decreases |board.roots|
  {
    if |board.roots| == 0 then board
    else
      var rest := RemoveRoot(Board(board.roots[1..]), id);
      assert forall b :: b in board.roots <==> b == board.roots[0] || b in board.roots[1..];
      if board.roots[0].id == id then rest else Board([board.roots[0]] + rest.roots)
  }

  // ---------------------------------------------------------------------
  // The playback

  // ---------------------------------------------------------------------
  // Slider arithmetic. A JavaScript number that may be `NaN` (or infinite)
  // is an `Option<real>`: `None` stands for the value that is not a finite number.

  /** `e.offsetX * max / width`: the slider value of a click, where `width`
      is the `offsetWidth` read from the progress bar. An `undefined` width
      (or a zero one) gives no finite value. */
  function ClickedValue(offsetX: real, max: real, width: Option<real>): (v: Option<real>)
    ensures v.None? <==> width.None? || width.value == 0.0
    ensures v.Some? ==> v.value * width.value == offsetX * max
    ensures width.Some? && 0.0 <= offsetX <= width.value && 0.0 <= max && v.Some? ==> 0.0 <= v.value <= max
  {
    if width.None? || width.value == 0.0 then None
    else
      var w := width.value;
      ClickBounds(offsetX, max, w);
      Some(offsetX * max / w)
  }

  /** A click inside a bar of positive width gives a value between 0 and `max`. */
  lemma ClickBounds(offsetX: real, max: real, w: real)
    requires w != 0.0
    ensures 0.0 <= offsetX <= w && 0.0 <= max ==> 0.0 <= offsetX * max / w <= max
  {
    if 0.0 <= offsetX <= w && 0.0 <= max {
      FinishedQueryPlayback.FractionBounds(offsetX, w);
      assert offsetX * max / w == (offsetX / w) * max;
      FinishedQueryPlayback.ScaleBounds(offsetX / w, max);
    }
  }

  /** `first + value / 100 * (last - first)`, not a number when the value is not. */
  function JumpTime(first: real, last: real, value: Option<real>): (t: Option<real>)
    ensures t.None? <==> value.None?
    ensures value.Some? && first <= last && 0.0 <= value.value <= 100.0 ==> first <= t.value <= last
  {
    if value.None? then None else Some(FinishedQueryPlayback.SliderTime(first, last, value.value))
  }

  /** `_onMouseUp` reads `offsetWidth` from the jQuery wrapper `$('#progressBar')`,
      which has no such property, so whatever the click the jump time is not a
      number; `_onMouseMove` reads it from the DOM element and gets a time in range. */
  lemma MouseUpLosesTime(first: real, last: real, offsetX: real, width: real)
    requires first <= last && 0.0 <= offsetX <= width && 0.0 < width
    ensures JumpTime(first, last, ClickedValue(offsetX, 100.0, None)).None?
    ensures var t := JumpTime(first, last, ClickedValue(offsetX, 100.0, Some(width)));
      t.Some? && first <= t.value <= last
  {
  }

  /** Messages the comment playback sends to the server; a time that is not a number is `None`. */
  datatype Request = FindQueryCommentsDuration | FindCommentsByTime(currentTime: Option<real>) | FindCommentsToRemoveByTime(currentTime: Option<real>)

  class CommentPlayback {
    var clicking: bool
    var playing: bool
    var playAfterSliderMove: bool
    var currentTime: Option<real>
    var currentWatchDuration: Option<real>
    var first: real
    var last: real
    var pendingTicks: nat
    var sent: seq<Request>
    var board: Board

    /** A playing playback always has a tick scheduled. */
    ghost predicate Valid()
      reads this
    {
      playing ==> pendingTicks > 0
    }

    constructor ()
      ensures Valid()
      ensures !clicking && !playing && !playAfterSliderMove
      ensures currentTime == Some(0.0) && currentWatchDuration == Some(0.0) && pendingTicks == 0 && sent == [] && board == Board([])
    {
      clicking := false;
      playing := false;
      playAfterSliderMove := false;
      currentTime := Some(0.0);
      currentWatchDuration := Some(0.0);
      first := 0.0;
      last := 0.0;
      pendingTicks := 0;
      sent := [];
      board := Board([]);
    }

    /** `_onConnect`: asks for the duration of the query's comments. */
    method OnConnect()
      requires Valid()
      modifies this
      ensures Valid()
      ensures sent == old(sent) + [FindQueryCommentsDuration]
      ensures clicking == old(clicking) && playing == old(playing) && playAfterSliderMove == old(playAfterSliderMove)
      ensures currentTime == old(currentTime) && currentWatchDuration == old(currentWatchDuration)
      ensures first == old(first) && last == old(last) && pendingTicks == old(pendingTicks) && board == old(board)
    {
      sent := sent + [FindQueryCommentsDuration];
    }

    /** `_onDurationFound`. */
    method OnDurationFound(dataFirst: real, dataLast: real)
      requires Valid()
      modifies this
      ensures Valid()
      ensures first == dataFirst && last == dataLast && currentTime == Some(dataFirst)
      ensures clicking == old(clicking) && playing == old(playing) && playAfterSliderMove == old(playAfterSliderMove)
      ensures currentWatchDuration == old(currentWatchDuration) && pendingTicks == old(pendingTicks)
      ensures sent == old(sent) && board == old(board)
    {
      first := dataFirst;
      last := dataLast;
      currentTime := Some(dataFirst);
    }

    /** `_onMouseDown`: pauses, remembering whether to resume afterwards. */
    method OnMouseDown()
      requires Valid()
      modifies this
      ensures Valid()
      ensures clicking && !playing && playAfterSliderMove == old(playing)
      ensures currentTime == old(currentTime) && currentWatchDuration == old(currentWatchDuration)
      ensures first == old(first) && last == old(last) && pendingTicks == old(pendingTicks)
      ensures sent == old(sent) && board == old(board)
    {
      if playing {
        playing := false;
        playAfterSliderMove := true;
      } else {
        playAfterSliderMove := false;
      }
      clicking := true;
    }

    /** `_onMouseUp` as written: resumes when playback was interrupted, then
        divides by the `offsetWidth` of a jQuery wrapper, which is `undefined`,
        so the current time becomes `NaN` and both requests carry it. */
    method OnMouseUp(offsetX: real, max: real)
      requires Valid()
      modifies this
      ensures Valid()
      ensures !clicking
      ensures playing == (old(playing) || old(playAfterSliderMove))
      ensures pendingTicks == old(pendingTicks) + (if old(playAfterSliderMove) then 1 else 0)
      ensures currentTime.None?
      ensures sent == old(sent) + [FindCommentsToRemoveByTime(None), FindCommentsByTime(None)]
      ensures playAfterSliderMove == old(playAfterSliderMove) && currentWatchDuration == old(currentWatchDuration)
      ensures first == old(first) && last == old(last) && board == old(board)
    {
      clicking := false;
      if playAfterSliderMove {
        playing := true;
        pendingTicks := pendingTicks + 1;
      }
      var valueClicked := ClickedValue(offsetX, max, None);
      currentTime := JumpTime(first, last, valueClicked);
      sent := sent + [FindCommentsToRemoveByTime(currentTime)];
      sent := sent + [FindCommentsByTime(currentTime)];
    }

    /** `_onMouseUp` with the width read from the DOM element, as `_onMouseMove`
        does: a click on the bar jumps to a time between first and last, asking
        first for the comments to remove and then for the comments to show. */
    method OnMouseUpFixed(offsetX: real, max: real, width: Option<real>)
      requires Valid()
      modifies this
      ensures Valid()
      ensures !clicking
      ensures playing == (old(playing) || old(playAfterSliderMove))
      ensures pendingTicks == old(pendingTicks) + (if old(playAfterSliderMove) then 1 else 0)
      ensures currentTime == JumpTime(first, last, ClickedValue(offsetX, max, width))
      ensures width.Some? && 0.0 < width.value && 0.0 <= offsetX <= width.value && max == 100.0 && first <= last ==>
        currentTime.Some? && first <= currentTime.value <= last
      ensures sent == old(sent) + [FindCommentsToRemoveByTime(currentTime), FindCommentsByTime(currentTime)]
      ensures playAfterSliderMove == old(playAfterSliderMove) && currentWatchDuration == old(currentWatchDuration)
      ensures first == old(first) && last == old(last) && board == old(board)
    {
      clicking := false;
      if playAfterSliderMove {
        playing := true;
        pendingTicks := pendingTicks + 1;
      }
      var valueClicked := ClickedValue(offsetX, max, width);
      currentTime := JumpTime(first, last, valueClicked);
      sent := sent + [FindCommentsToRemoveByTime(currentTime)];
      sent := sent + [FindCommentsByTime(currentTime)];
    }

    /** `_onMouseMove`: acts only while the mouse button is down, reading the
        bar's width from the DOM element. */
    method OnMouseMove(offsetX: real, max: real, width: Option<real>)
      requires Valid()
      modifies this
      ensures Valid()
      ensures old(clicking) ==>
        && currentTime == JumpTime(first, last, ClickedValue(offsetX, max, width))
        && sent == old(sent) + [FindCommentsToRemoveByTime(currentTime), FindCommentsByTime(currentTime)]
      ensures !old(clicking) ==> currentTime == old(currentTime) && sent == old(sent)
      ensures clicking == old(clicking) && playing == old(playing) && playAfterSliderMove == old(playAfterSliderMove)
      ensures currentWatchDuration == old(currentWatchDuration)
      ensures first == old(first) && last == old(last) && pendingTicks == old(pendingTicks) && board == old(board)
    {
      if clicking {
        var valueClicked := ClickedValue(offsetX, max, width);
        currentTime := JumpTime(first, last, valueClicked);
        sent := sent + [FindCommentsToRemoveByTime(currentTime)];
        sent := sent + [FindCommentsByTime(currentTime)];
      }
    }

    /** `_onPlayButtonClicked`. */
    method Play()
      requires Valid()
      modifies this
      ensures Valid()
      ensures playing && pendingTicks == old(pendingTicks) + 1
      ensures clicking == old(clicking) && playAfterSliderMove == old(playAfterSliderMove)
      ensures currentTime == old(currentTime) && currentWatchDuration == old(currentWatchDuration)
      ensures first == old(first) && last == old(last) && sent == old(sent) && board == old(board)
    {
      playing := true;
      pendingTicks := pendingTicks + 1;
    }

    /** `_onPauseButtonClicked`. */
    method Pause()
      requires Valid()
      modifies this
      ensures Valid()
      ensures !playing
      ensures clicking == old(clicking) && playAfterSliderMove == old(playAfterSliderMove)
      ensures currentTime == old(currentTime) && currentWatchDuration == old(currentWatchDuration)
      ensures first == old(first) && last == old(last) && pendingTicks == old(pendingTicks)
      ensures sent == old(sent) && board == old(board)
    {
      playing := false;
    }

    /** One scheduled timeout of `_startPlaying` firing. */
    method Tick()
      requires Valid() && pendingTicks > 0
      modifies this
      ensures Valid()
      ensures clicking == old(clicking) && playing == old(playing) && playAfterSliderMove == old(playAfterSliderMove)
      ensures first == old(first) && last == old(last) && board == old(board)
      ensures old(playing) ==>
        && currentTime == (if old(currentTime).Some? then Some(old(currentTime).value + 1000.0) else None)
        && sent == old(sent) + [FindCommentsByTime(currentTime)]
        && currentWatchDuration == (if currentTime.Some? then FinishedQueryPlayback.Progress(first, last, currentTime.value) else None)
        && pendingTicks == old(pendingTicks)
      ensures !old(playing) ==>
        && currentTime == old(currentTime) && sent == old(sent)
        && currentWatchDuration == old(currentWatchDuration)
        && pendingTicks == old(pendingTicks) - 1
    {
      pendingTicks := pendingTicks - 1;
      if playing {
        currentTime := if currentTime.Some? then Some(currentTime.value + 1000.0) else None;
        sent := sent + [FindCommentsByTime(currentTime)];
        currentWatchDuration := if currentTime.Some? then FinishedQueryPlayback.Progress(first, last, currentTime.value) else None;
        pendingTicks := pendingTicks + 1;
      }
    }

    /** `_onCommentFound`: shows the comment and jumps to its creation time. */
    method OnCommentFound(c: FoundComment)
      requires Valid()
      modifies this
      ensures Valid()
      ensures board == PrepareComment(old(board), c)
      ensures currentTime == Some(c.createdAt as real)
      ensures clicking == old(clicking) && playing == old(playing) && playAfterSliderMove == old(playAfterSliderMove)
      ensures currentWatchDuration == old(currentWatchDuration)
      ensures first == old(first) && last == old(last) && pendingTicks == old(pendingTicks) && sent == old(sent)
    {
      board := PrepareComment(board, c);
      currentTime := Some(c.createdAt as real);
    }

    /** `_onCommentToRemoveFound`. */
    method OnCommentToRemoveFound(commentId: int)
      requires Valid()
      modifies this
      ensures Valid()
      ensures board == RemoveRoot(old(board), commentId)
      ensures clicking == old(clicking) && playing == old(playing) && playAfterSliderMove == old(playAfterSliderMove)
      ensures currentTime == old(currentTime) && currentWatchDuration == old(currentWatchDuration)
      ensures first == old(first) && last == old(last) && pendingTicks == old(pendingTicks) && sent == old(sent)
    {
      board := RemoveRoot(board, commentId);
    }
  }
}
