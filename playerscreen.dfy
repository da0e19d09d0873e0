/**
 * `PlayerDetailFragmentMedia3`, the player screen: its `mm:ss` time labels and
 * the seek bar, whose `userIsSeeking` flag keeps position updates from
 * moving the thumb or the label while the user drags it.
 */
module PlayerScreen {
  import opened Optional
  import opened Numeric
  import opened Decimal

  /** What the total-time label shows until a duration arrives. */
  const UNKNOWN_TOTAL: string := "--:--"

  /**
   * The screen's state: the seeking flag, the seek bar's progress and
   * maximum, the two labels, and the seeks it has asked the player for.
   */
  datatype ScreenState = ScreenState(
    userIsSeeking: bool,
    progress: Int,
    max: Int,
    currentTime: string,
    totalTime: string,
    seeks: seq<Long>)

  /**
   * `formatTime(timeMs)` = `String.format("%02d:%02d", minutes, seconds)` with
   * Kotlin's truncating `/` and `%`. For a non-negative time both fields are
   * zero-padded to two digits, the minutes may grow past two, and the label
   * reads back as the whole minutes and the seconds within the minute.
   */
  function FormatTime(timeMs: Long): (s: string)
    ensures timeMs >= 0 ==> ParseClock(s) == Some((timeMs / 1000 / 60, timeMs / 1000 % 60))
    ensures timeMs >= 0 ==> |s| >= 5
    ensures 0 <= timeMs < 6_000_000 ==> |s| == 5
    ensures timeMs >= 0 && s[0] == '0' ==> s[2] == ':'
  {
    var totalSeconds := Quot(timeMs, 1000);
    var minutes := Quot(totalSeconds, 60);
    var seconds := Rem(totalSeconds, 60);
    var text := Format02D(minutes) + ":" + Format02D(seconds);
    if timeMs >= 0 then ParseClockOf(Format02D(minutes), Format02D(seconds)); text else text
  }

  /** The label of time 0 is the label the screen starts with. */
  lemma FormatTimeZero()
    ensures FormatTime(0) == "00:00"
  {
    assert NatDigits(0) == "0";
  }

  /** Two non-negative times get the same label exactly when they fall in the same whole second. */
  lemma FormatTimeSameSecond(a: Long, b: Long)
    requires a >= 0 && b >= 0
    ensures FormatTime(a) == FormatTime(b) <==> a / 1000 == b / 1000
  {
    if FormatTime(a) == FormatTime(b) {
      assert ParseClock(FormatTime(a)) == ParseClock(FormatTime(b));
    }
  }

  /** `onViewCreated`: the labels start at `00:00` and `--:--`; the bar as the layout has it. */
  function Created(progress: Int, max: Int): (r: ScreenState)
    ensures !r.userIsSeeking && r.seeks == []
    ensures r.progress == progress && r.max == max
    ensures r.currentTime == FormatTime(0) && r.totalTime == UNKNOWN_TOTAL
  {
    FormatTimeZero();
    ScreenState(false, progress, max, "00:00", UNKNOWN_TOTAL, [])
  }

  /**
   * `onProgressChanged`: a drag by the user moves the bar (the widget does
   * that itself) and shows the dragged-to time; other changes are the
   * screen's own and change nothing more.
   */
  function ProgressChangedStep(s: ScreenState, progress: Int, fromUser: bool): (r: ScreenState)
    ensures fromUser ==> r == s.(progress := progress, currentTime := FormatTime(progress))
    ensures !fromUser ==> r == s
  {
    if fromUser then s.(progress := progress, currentTime := FormatTime(progress)) else s
  }

  /** `onStartTrackingTouch`: a drag begins. */
  function StartTrackingStep(s: ScreenState): (r: ScreenState)
    ensures r == s.(userIsSeeking := true)
  {
    s.(userIsSeeking := true)
  }

  /** `onStopTrackingTouch`: the drag ends and the player seeks to the bar's progress, if it is not negative. */
  function StopTrackingStep(s: ScreenState): (r: ScreenState)
    ensures !r.userIsSeeking
    ensures s.progress >= 0 ==> r.seeks == s.seeks + [s.progress as Long]
    ensures s.progress < 0 ==> r.seeks == s.seeks
    ensures r == s.(userIsSeeking := false, seeks := r.seeks)
  {
    s.(userIsSeeking := false, seeks := if s.progress >= 0 then s.seeks + [s.progress as Long] else s.seeks)
  }

  /** The duration observer: only a positive duration sets the bar's maximum and the total label. */
  function DurationStep(s: ScreenState, duration: Long): (r: ScreenState)
    ensures duration > 0 ==> r == s.(max := ToInt(duration), totalTime := FormatTime(duration))
    ensures duration <= 0 ==> r == s
  {
    if duration > 0 then s.(max := ToInt(duration), totalTime := FormatTime(duration)) else s
  }

  /** The position observer: moves the bar and the label unless the user is dragging. */
  function PositionStep(s: ScreenState, position: Long): (r: ScreenState)
    ensures s.userIsSeeking ==> r == s
    ensures !s.userIsSeeking ==> r == s.(progress := ToInt(position), currentTime := FormatTime(position))
  {
    if !s.userIsSeeking then s.(progress := ToInt(position), currentTime := FormatTime(position)) else s
  }

  /**
   * One round of the 200 ms progress job: like the position observer, and
   * only while the player plays (`isPlaying` is live data that is `true`).
   */
  function TickStep(s: ScreenState, isPlaying: bool, position: Long): (r: ScreenState)
    ensures s.userIsSeeking || !isPlaying ==> r == s
    ensures !s.userIsSeeking && isPlaying ==> r == PositionStep(s, position)
  {
    if !s.userIsSeeking && isPlaying then s.(progress := ToInt(position), currentTime := FormatTime(position)) else s
  }

  /** Position updates delivered one after another. */
  function Positions(s: ScreenState, positions: seq<Long>): ScreenState
    decreases |positions|
  {
    if positions == [] then s else Positions(PositionStep(s, positions[0]), positions[1..])
  }

  /** However many position updates arrive during a drag, the bar and the label stay where the user put them. */
  lemma {:induction false} DragHoldsAgainstPositions(s: ScreenState, positions: seq<Long>)
    requires s.userIsSeeking
    ensures Positions(s, positions) == s
    decreases |positions|
  {
    if positions != [] {
      DragHoldsAgainstPositions(PositionStep(s, positions[0]), positions[1..]);
    }
  }

  /** Outside a drag a position update overwrites the one before it. */
  lemma PositionOverwrites(s: ScreenState, a: Long, b: Long)
    requires !s.userIsSeeking
    ensures PositionStep(PositionStep(s, a), b) == PositionStep(s, b)
  {
  }

  /**
   * Outside a drag the last position update wins: the screen is as if only
   * that update had arrived, so the bar and the label show it.
   */
  lemma {:induction false} LastPositionWins(s: ScreenState, positions: seq<Long>)
    requires !s.userIsSeeking && positions != []
    ensures Positions(s, positions) == PositionStep(s, positions[|positions| - 1])
    decreases |positions|
  {
    var next := PositionStep(s, positions[0]);
    var rest := positions[1..];
    assert Positions(s, positions) == Positions(next, rest);
    if rest != [] {
      var last := rest[|rest| - 1];
      assert last == positions[|positions| - 1];
      LastPositionWins(next, rest);
      PositionOverwrites(s, positions[0], last);
    }
  }

  /**
   * A whole drag: start, move to `target`, any position updates meanwhile,
   * release. The player is asked to seek to `target` when it is not
   * negative, and the flag is clear again.
   */
  lemma DragSeeksToTarget(s: ScreenState, target: Int, during: seq<Long>)
    ensures var r := StopTrackingStep(Positions(ProgressChangedStep(StartTrackingStep(s), target, true), during));
      && !r.userIsSeeking
      && r.currentTime == FormatTime(target)
      && r.seeks == s.seeks + (if target >= 0 then [target as Long] else [])
  {
    DragHoldsAgainstPositions(ProgressChangedStep(StartTrackingStep(s), target, true), during);
  }

  /** The player screen's listener state, field for field. */
  class PlayerDetailScreen {
    var userIsSeeking: bool
    var progress: Int
    var max: Int
    var currentTime: string
    var totalTime: string
    /** The positions passed to `playerController.seekTo` so far. */
    var seeks: seq<Long>

    ghost function State(): ScreenState
      reads this
    {
      ScreenState(userIsSeeking, progress, max, currentTime, totalTime, seeks)
    }

    /** `onViewCreated`, with the bar's progress and maximum as the layout sets them. */
    constructor (layoutProgress: Int, layoutMax: Int)
      ensures State() == Created(layoutProgress, layoutMax)
    {
      userIsSeeking := false;
      progress, max := layoutProgress, layoutMax;
      currentTime, totalTime := "00:00", UNKNOWN_TOTAL;
      seeks := [];
    }

    method OnProgressChanged(newProgress: Int, fromUser: bool)
      modifies this
      ensures State() == ProgressChangedStep(old(State()), newProgress, fromUser)
    {
      if fromUser {
        progress := newProgress;
        currentTime := FormatTime(newProgress);
      }
    }

    method OnStartTrackingTouch()
      modifies this
      ensures State() == StartTrackingStep(old(State()))
    {
      userIsSeeking := true;
    }

    method OnStopTrackingTouch()
      modifies this
      ensures State() == StopTrackingStep(old(State()))
    {
      userIsSeeking := false;
      if progress >= 0 {
        seeks := seeks + [progress as Long];
      }
    }

    method OnDurationChanged(duration: Long)
      modifies this
      ensures State() == DurationStep(old(State()), duration)
    {
      if duration > 0 {
        max := ToInt(duration);
        totalTime := FormatTime(duration);
      }
    }

    method OnPositionChanged(position: Long)
      modifies this
      ensures State() == PositionStep(old(State()), position)
    {
      if !userIsSeeking {
        progress := ToInt(position);
        currentTime := FormatTime(position);
      }
    }

    method ProgressTick(isPlaying: bool, position: Long)
      modifies this
      ensures State() == TickStep(old(State()), isPlaying, position)
    {
      if !userIsSeeking && isPlaying {
        progress := ToInt(position);
        currentTime := FormatTime(position);
      }
    }
  }
}
