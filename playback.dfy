/** Model of client-src/js/finished-query-playback.js: the replay of a
    finished query. The slider, the play and pause buttons and a one-second
    timer drive `currentTime`; each step asks the server for the answers at
    that time, and found answers move the participants' points on the chart.
    Timers are explicit: `pendingTicks` counts the scheduled timeouts and
    `Tick` is one of them firing. The slider position arrives as a value in
    0..100 (the DOM measurement that produces it is not modelled). */
module FinishedQueryPlayback {
  import opened Base
  import LiveChart

  /** The time a slider position stands for: `first + value/100 * (last - first)`. */
  function SliderTime(first: real, last: real, value: real): (t: real)
    ensures first <= last && 0.0 <= value <= 100.0 ==> first <= t <= last
  {
    var a := value / 100.0;
    var d := last - first;
    if first <= last && 0.0 <= value <= 100.0 then ScaleBounds(a, d); first + a * d
    else first + a * d
  }

  /** The progress bar value for a time, in percent; None where JavaScript
      divides by zero (a query whose first and last times coincide). */
  function Progress(first: real, last: real, t: real): (p: Option<real>)
    ensures p.None? <==> first == last
    ensures p.Some? && first <= t <= last ==> 0.0 <= p.value <= 100.0
  {
    if last == first then None
    else
      if first <= t <= last then FractionBounds(t - first, last - first); Some(((t - first) / (last - first)) * 100.0)
      else Some(((t - first) / (last - first)) * 100.0)
  }

  lemma CancelFactor(a: real, d: real)
    requires d != 0.0
    ensures a * d / d == a
  {
  }

  lemma ScaleBounds(a: real, d: real)
    requires 0.0 <= a <= 1.0 && 0.0 <= d
    ensures 0.0 <= a * d <= d
  {
    assert (1.0 - a) * d >= 0.0;
  }

  lemma FractionBounds(a: real, d: real)
    requires 0.0 < d && 0.0 <= a <= d
    ensures 0.0 <= a / d <= 1.0
  {
    assert a / d * d == a;
  }

  /** Slider value 0 is the first time and 100 the last. */
  lemma SliderEnds(first: real, last: real)
    ensures SliderTime(first, last, 0.0) == first
    ensures SliderTime(first, last, 100.0) == last
  {
  }

  /** The progress bar shows back the slider value a time came from. */
  lemma ProgressOfSliderTime(first: real, last: real, value: real)
    requires first != last
    ensures Progress(first, last, SliderTime(first, last, value)) == Some(value)
  {
    var d := last - first;
    var t := SliderTime(first, last, value);
    var a := value / 100.0;
    assert t - first == a * d;
    CancelFactor(a, d);
    assert (t - first) / d == a;
    assert (value / 100.0) * 100.0 == value;
    assert Progress(first, last, t) == Some(((t - first) / d) * 100.0);
  }

  /** Messages the playback sends to the server. `find-answers-by-time` has
      no handler on the server side. */
  datatype Request = FindQueryDuration | FindAnswersByTime(currentTime: real)

  class Playback {
    var clicking: bool
    var playing: bool
    var playAfterSliderMove: bool
    var currentTime: real
    var currentWatchDuration: Option<real>
    var first: real
    var last: real
    var pendingTicks: nat
    var sent: seq<Request>
    const chart: LiveChart.Chart

    /** The chart is consistent, and a playing playback always has a tick
        scheduled, so playing continues until paused. */
    ghost predicate Valid()
      reads this, chart
    {
      chart.Valid() && (playing ==> pendingTicks > 0)
    }

    /** `_create`: stopped, not clicking, at time 0, with its chart. The
        query's first and last times are 0 until the duration arrives. */
    constructor ()
      ensures Valid() && fresh(chart)
      ensures !clicking && !playing && !playAfterSliderMove
      ensures currentTime == 0.0 && currentWatchDuration == Some(0.0) && pendingTicks == 0 && sent == []
      ensures chart.userHashes == []
    {
      clicking := false;
      playing := false;
      playAfterSliderMove := false;
      currentTime := 0.0;
      currentWatchDuration := Some(0.0);
      first := 0.0;
      last := 0.0;
      pendingTicks := 0;
      sent := [];
      chart := new LiveChart.Chart();
    }

    /** `_onConnect`: asks for the query's duration. */
    method OnConnect()
      requires Valid()
      modifies this
      ensures Valid()
      ensures sent == old(sent) + [FindQueryDuration]
      ensures clicking == old(clicking) && playing == old(playing) && playAfterSliderMove == old(playAfterSliderMove)
      ensures currentTime == old(currentTime) && currentWatchDuration == old(currentWatchDuration)
      ensures first == old(first) && last == old(last) && pendingTicks == old(pendingTicks)
    {
      sent := sent + [FindQueryDuration];
    }

    /** `_onDurationFound`: remembers the query's first and last times and
        rewinds to the first. */
    method OnDurationFound(dataFirst: real, dataLast: real)
      requires Valid()
      modifies this
      ensures Valid()
      ensures first == dataFirst && last == dataLast && currentTime == dataFirst
      ensures clicking == old(clicking) && playing == old(playing) && playAfterSliderMove == old(playAfterSliderMove)
      ensures currentWatchDuration == old(currentWatchDuration) && pendingTicks == old(pendingTicks) && sent == old(sent)
    {
      first := dataFirst;
      last := dataLast;
      currentTime := dataFirst;
    }

    /** `_onMouseDown`: pauses, remembering whether to resume afterwards. */
    method OnMouseDown()
      requires Valid()
      modifies this
      ensures Valid()
      ensures clicking && !playing
      ensures playAfterSliderMove == old(playing)
      ensures currentTime == old(currentTime) && currentWatchDuration == old(currentWatchDuration)
      ensures first == old(first) && last == old(last) && pendingTicks == old(pendingTicks) && sent == old(sent)
    {
      if playing {
        playing := false;
        playAfterSliderMove := true;
      } else {
        playAfterSliderMove := false;
      }
      clicking := true;
    }

    /** `_onMouseUp`: stops clicking, resumes when playback was interrupted,
        jumps to the slider time and asks for the answers there. */
    method OnMouseUp(valueClicked: real)
      requires Valid()
      modifies this
      ensures Valid()
      ensures !clicking
      ensures playing == (old(playing) || old(playAfterSliderMove))
      ensures pendingTicks == old(pendingTicks) + (if old(playAfterSliderMove) then 1 else 0)
      ensures currentTime == SliderTime(first, last, valueClicked)
      ensures sent == old(sent) + [FindAnswersByTime(currentTime)]
      ensures playAfterSliderMove == old(playAfterSliderMove) && currentWatchDuration == old(currentWatchDuration)
      ensures first == old(first) && last == old(last)
    {
      clicking := false;
      if playAfterSliderMove {
        playing := true;
        pendingTicks := pendingTicks + 1;
      }
      currentTime := first + ((valueClicked / 100.0) * (last - first));
      sent := sent + [FindAnswersByTime(currentTime)];
    }

    /** `_onMouseMove`: only while the mouse button is down, jumps to the
        slider time and asks for the answers there. */
    method OnMouseMove(valueClicked: real)
      requires Valid()
      modifies this
      ensures Valid()
      ensures old(clicking) ==> currentTime == SliderTime(first, last, valueClicked) && sent == old(sent) + [FindAnswersByTime(currentTime)]
      ensures !old(clicking) ==> currentTime == old(currentTime) && sent == old(sent)
      ensures clicking == old(clicking) && playing == old(playing) && playAfterSliderMove == old(playAfterSliderMove)
      ensures currentWatchDuration == old(currentWatchDuration)
      ensures first == old(first) && last == old(last) && pendingTicks == old(pendingTicks)
    {
      if clicking {
        currentTime := first + ((valueClicked / 100.0) * (last - first));
        sent := sent + [FindAnswersByTime(currentTime)];
      }
    }

    /** `_onPlayButtonClicked`: plays and schedules a tick. */
    method Play()
      requires Valid()
      modifies this
      ensures Valid()
      ensures playing && pendingTicks == old(pendingTicks) + 1
      ensures clicking == old(clicking) && playAfterSliderMove == old(playAfterSliderMove)
      ensures currentTime == old(currentTime) && currentWatchDuration == old(currentWatchDuration)
      ensures first == old(first) && last == old(last) && sent == old(sent)
    {
      playing := true;
      pendingTicks := pendingTicks + 1;
    }

    /** `_onPauseButtonClicked`. */
    method Pause()
      requires Valid()
      modifies this
      ensures Valid()
      ensures !playing
      ensures clicking == old(clicking) && playAfterSliderMove == old(playAfterSliderMove)
      ensures currentTime == old(currentTime) && currentWatchDuration == old(currentWatchDuration)
      ensures first == old(first) && last == old(last) && sent == old(sent) && pendingTicks == old(pendingTicks)
    {
      playing := false;
    }

    /** One scheduled timeout of `_startPlaying` firing: while playing it
        advances one second, asks for the answers, updates the progress and
        schedules the next tick; otherwise the chain of ticks ends. */
    method Tick()
      requires Valid() && pendingTicks > 0
      modifies this
      ensures Valid()
      ensures clicking == old(clicking) && playing == old(playing) && playAfterSliderMove == old(playAfterSliderMove)
      ensures first == old(first) && last == old(last)
      ensures old(playing) ==>
        && currentTime == old(currentTime) + 1000.0
        && sent == old(sent) + [FindAnswersByTime(currentTime)]
        && currentWatchDuration == Progress(first, last, currentTime)
        && pendingTicks == old(pendingTicks)
      ensures !old(playing) ==>
        && currentTime == old(currentTime) && sent == old(sent)
        && currentWatchDuration == old(currentWatchDuration)
        && pendingTicks == old(pendingTicks) - 1
    {
      pendingTicks := pendingTicks - 1;
      if playing {
        currentTime := currentTime + 1000.0;
        sent := sent + [FindAnswersByTime(currentTime)];
        currentWatchDuration := Progress(first, last, currentTime);
        pendingTicks := pendingTicks + 1;
      }
    }

    /** `_onAnswersFound`: jumps to the answer's time and moves its
        participant's point on the chart. */
    method OnAnswersFound(createdAt: int, userHash: string, x: real, y: real, now: int)
      requires Valid()
      modifies this, chart
      ensures Valid()
      ensures currentTime == createdAt as real
      ensures chart.Points() == old(chart.Points())[userHash := LiveChart.Point(x, y)]
      ensures clicking == old(clicking) && playing == old(playing) && playAfterSliderMove == old(playAfterSliderMove)
      ensures currentWatchDuration == old(currentWatchDuration)
      ensures first == old(first) && last == old(last) && pendingTicks == old(pendingTicks) && sent == old(sent)
    {
      currentTime := createdAt as real;
      chart.UserData(userHash, LiveChart.Point(x, y), now);
    }
  }

  /** Pressing play, then pause, then letting the pending tick fire: time
      advances by nothing and no request is sent. */
  method PausedTickSendsNothing() returns (advanced: real, requests: nat)
    ensures advanced == 0.0 && requests == 0
  {
    var playback := new Playback();
    playback.Play();
    playback.Pause();
    var before := playback.currentTime;
    playback.Tick();
    advanced := playback.currentTime - before;
    requests := |playback.sent|;
  }

  /** Dragging the slider while playing pauses; releasing it resumes. */
  method DragWhilePlayingResumes() returns (playingDuringDrag: bool, playingAfter: bool)
    ensures !playingDuringDrag && playingAfter
  {
    var playback := new Playback();
    playback.Play();
    playback.OnMouseDown();
    playingDuringDrag := playback.playing;
    playback.OnMouseMove(50.0);
    playback.OnMouseUp(60.0);
    playingAfter := playback.playing;
  }
}
