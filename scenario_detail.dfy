/**
 * The playback sequencer of components/scenario-detail.tsx: the component's
 * state as the fields of a class, each event handler as a method.
 *
 * The 3000 ms repeat delay is a timer the environment fires through
 * `RepeatTimerFired`. The code keeps the timer's handle in a ref; the ref is
 * not cleared when the timer fires, and arming a new timer while one is
 * pending overwrites the handle without cancelling the old timer, which then
 * can no longer be cancelled (`strayTimers`).
 */
module ScenarioDetail {
  import opened Types
  import opened Js
  import ScenarioCard

  /** What `repeatDelayRef.current` holds. */
  datatype TimerRef =
    | NoTimer    // null
    | Armed      // the handle of a timer that has not fired
    | Spent      // the handle of a timer that already fired

  /** The detail view's title: the summary cut at 50 characters. */
  function ShortTitle(summary: string): (r: string)
    ensures |summary| <= 50 ==> r == summary
    ensures |summary| > 50 ==> |r| == 53 && r[..50] == summary[..50] && r[50..] == "..."
  {
    ScenarioCard.Truncate(summary, 50)
  }

  /** The indices `playAllConversation` queues: 1..n-1 without a truthy preloaded URL, ascending. */
  function IndicesToDownload(n: nat, preloaded: map<int, Option<string>>): (r: seq<int>)
    ensures forall x :: x in r <==> 1 <= x < n && !Truthy(Preloaded(preloaded, x))
    ensures forall i, j :: 0 <= i < j < |r| ==> r[i] < r[j]
  {
    KeepUnloaded(Range(1, n + 1), n, preloaded)
  }

  /** `preloadedAudio[i]`, undefined for a missing key. */
  function Preloaded(preloaded: map<int, Option<string>>, i: int): (url: Option<string>)
  {
    if i in preloaded then preloaded[i] else None
  }

  /** `Array.from({ length: n }, (_, i) => i + 1)` shifted: the integers lo..hi-1. */
  function Range(lo: int, hi: int): (r: seq<int>)
    ensures |r| == if lo < hi then hi - lo else 0
    ensures forall i :: 0 <= i < |r| ==> r[i] == lo + i
    ensures forall x :: x in r <==> lo <= x < hi
    decreases hi - lo
  {
    if lo < hi then [lo] + Range(lo + 1, hi) else []
  }

  /** `.filter(i => i < n && !preloadedAudio[i])`. */
  function KeepUnloaded(xs: seq<int>, n: nat, preloaded: map<int, Option<string>>): (r: seq<int>)
    requires forall i, j :: 0 <= i < j < |xs| ==> xs[i] < xs[j]
    ensures forall x :: x in r <==> x in xs && x < n && !Truthy(Preloaded(preloaded, x))
    ensures forall i, j :: 0 <= i < j < |r| ==> r[i] < r[j]
    ensures forall i :: 0 <= i < |r| ==> (|xs| > 0 && r[i] >= xs[0])
  {
    if xs == [] then []
    else
      var rest := KeepUnloaded(xs[1..], n, preloaded);
      if xs[0] < n && !Truthy(Preloaded(preloaded, xs[0])) then [xs[0]] + rest else rest
  }

  class Sequencer {
    var lineCount: nat                        // scenario.conversation.length
    var currentPlayingIndex: Option<int>
    var isPlayingAll: bool
    var autoRepeat: bool
    var isRepeating: bool
    var repeatTimer: TimerRef                 // repeatDelayRef.current
    var strayTimers: nat                      // pending timers whose handle was overwritten
    var downloadQueue: seq<int>
    var preloadedAudio: map<int, Option<string>>

    /**
     * The invariant every event keeps, a late `onPlay` included: the repeat
     * banner shows only while the ref holds an unfired timer, and the
     * prefetch queue holds only lines after the first.
     */
    ghost predicate Valid()
      reads this
    {
      (isRepeating ==> repeatTimer == Armed) &&
      (forall k :: 0 <= k < |downloadQueue| ==> 1 <= downloadQueue[k] < lineCount)
    }

    /**
     * The current line is a line of the scenario (or 0, the line play-all
     * and the repeat timer select even in an empty scenario), and play-all
     * always has one. Callbacks made on the current render keep this; a
     * late `onPlay` can break it, and stopping, navigating, starting
     * play-all, the repeat timer or a click on a line restore it.
     */
    ghost predicate OnLine()
      reads this
    {
      (isPlayingAll ==> currentPlayingIndex.Some?) &&
      (currentPlayingIndex.Some? ==>
         0 <= currentPlayingIndex.value && (currentPlayingIndex.value < lineCount || currentPlayingIndex.value == 0))
    }

    /** The component mounted on a scenario with `lineCount` lines. */
    constructor (lineCount: nat)
      ensures Valid() && OnLine() && this.lineCount == lineCount
      ensures currentPlayingIndex.None? && !isPlayingAll && !autoRepeat && !isRepeating
      ensures repeatTimer == NoTimer && strayTimers == 0
      ensures downloadQueue == [] && preloadedAudio == map[]
    {
      this.lineCount := lineCount;
      currentPlayingIndex := None;
      isPlayingAll, autoRepeat, isRepeating := false, false, false;
      repeatTimer, strayTimers := NoTimer, 0;
      downloadQueue, preloadedAudio := [], map[];
    }

    /**
     * The flags line `index` is rendered with: (`isPlaying`, `isPlayingAll`);
     * `isCurrentInQueue` equals the second. A line gets a raised flag exactly
     * when it is the current line, and never both.
     */
    function ItemFlags(index: int): (flags: (bool, bool))
      reads this
      ensures flags.0 || flags.1 <==> currentPlayingIndex == Some(index)
      ensures !(flags.0 && flags.1)
      ensures flags.1 <==> isPlayingAll && currentPlayingIndex == Some(index)
    {
      (currentPlayingIndex == Some(index) && !isPlayingAll,
       isPlayingAll && currentPlayingIndex == Some(index))
    }

    /** `playConversation(index)`: outside play-all, toggle the line on or off; during play-all, nothing. */
    method PlayConversation(index: int)
      requires Valid() && 0 <= index < lineCount
      modifies this`currentPlayingIndex
      ensures Valid() && (old(OnLine()) ==> OnLine())
      ensures old(isPlayingAll) ==> currentPlayingIndex == old(currentPlayingIndex)
      ensures !old(isPlayingAll) && old(currentPlayingIndex) == Some(index) ==> currentPlayingIndex.None?
      ensures !old(isPlayingAll) && old(currentPlayingIndex) != Some(index) ==> currentPlayingIndex == Some(index)
    {
      PlayConversationFromRender(index, isPlayingAll, currentPlayingIndex);
    }

    /**
     * `playConversation(index)` as a closure made at an earlier render,
     * whose `isPlayingAll` and `currentPlayingIndex` were `renderedPlayingAll`
     * and `renderedIndex`. A line's `onPlay` that runs after its fetch
     * settles is such a closure: it reads the captured values, not the
     * current ones. It keeps `Valid`, but not `OnLine`.
     */
    method PlayConversationFromRender(index: int, renderedPlayingAll: bool, renderedIndex: Option<int>)
      requires Valid()
      modifies this`currentPlayingIndex
      ensures Valid()
      ensures renderedPlayingAll ==> currentPlayingIndex == old(currentPlayingIndex)
      ensures !renderedPlayingAll ==>
        currentPlayingIndex == (if renderedIndex == Some(index) then None else Some(index))
    {
      if renderedPlayingAll {
        return;
      }
      currentPlayingIndex := if Some(index) == renderedIndex then None else Some(index);
    }

    /**
     * `playAllConversation`: play-all from line 0, and append to the queue,
     * after whatever it already holds, the later lines not yet preloaded.
     */
    method PlayAllConversation()
      requires Valid()
      modifies this`isPlayingAll, this`currentPlayingIndex, this`downloadQueue
      ensures Valid() && OnLine()
      ensures isPlayingAll && currentPlayingIndex == Some(0)
      ensures downloadQueue == old(downloadQueue) + IndicesToDownload(lineCount, preloadedAudio)
    {
      isPlayingAll := true;
      currentPlayingIndex := Some(0);
      var indicesToDownload := IndicesToDownload(lineCount, preloadedAudio);
      assert forall k :: 0 <= k < |indicesToDownload| ==> indicesToDownload[k] in indicesToDownload;
      downloadQueue := downloadQueue + indicesToDownload;
    }

    /**
     * `handleAudioEnded`: only during play-all with a current line. Before
     * the last line it advances by one. At the end, with auto-repeat it shows
     * the banner and arms the repeat timer (an earlier unfired timer is left
     * running); without it play-all stops.
     */
    method HandleAudioEnded()
      requires Valid()
      modifies this`currentPlayingIndex, this`isPlayingAll, this`isRepeating, this`repeatTimer, this`strayTimers
      ensures Valid() && (old(OnLine()) ==> OnLine())
      ensures !(old(isPlayingAll) && old(currentPlayingIndex).Some?) ==>
        currentPlayingIndex == old(currentPlayingIndex) && isPlayingAll == old(isPlayingAll) &&
        isRepeating == old(isRepeating) && repeatTimer == old(repeatTimer) && strayTimers == old(strayTimers)
      ensures old(isPlayingAll) && old(currentPlayingIndex).Some? && old(currentPlayingIndex).value < lineCount - 1 ==>
        currentPlayingIndex == Some(old(currentPlayingIndex).value + 1) && isPlayingAll &&
        isRepeating == old(isRepeating) && repeatTimer == old(repeatTimer) && strayTimers == old(strayTimers)
      ensures old(isPlayingAll) && old(currentPlayingIndex).Some? && old(currentPlayingIndex).value >= lineCount - 1 && autoRepeat ==>
        currentPlayingIndex == old(currentPlayingIndex) && isPlayingAll &&
        isRepeating && repeatTimer == Armed &&
        strayTimers == old(strayTimers) + (if old(repeatTimer) == Armed then 1 else 0)
      ensures old(isPlayingAll) && old(currentPlayingIndex).Some? && old(currentPlayingIndex).value >= lineCount - 1 && !autoRepeat ==>
        currentPlayingIndex.None? && !isPlayingAll &&
        isRepeating == old(isRepeating) && repeatTimer == old(repeatTimer) && strayTimers == old(strayTimers)
    {
      if isPlayingAll && currentPlayingIndex.Some? {
        if currentPlayingIndex.value < lineCount - 1 {
          currentPlayingIndex := Some(currentPlayingIndex.value + 1);
        } else if autoRepeat {
          isRepeating := true;
          if repeatTimer == Armed {
            strayTimers := strayTimers + 1;
          }
          repeatTimer := Armed;
        } else {
          isPlayingAll := false;
          currentPlayingIndex := None;
        }
      }
    }

    /**
     * The repeat timer's callback: back to line 0 and the banner cleared;
     * play-all is left as it is. `fromRef` tells whether the timer that fired
     * is the one the ref holds or an overwritten one.
     */
    method RepeatTimerFired(fromRef: bool)
      requires Valid()
      requires fromRef ==> repeatTimer == Armed
      requires !fromRef ==> strayTimers > 0
      modifies this`currentPlayingIndex, this`isRepeating, this`repeatTimer, this`strayTimers
      ensures Valid() && OnLine()
      ensures currentPlayingIndex == Some(0) && !isRepeating
      ensures repeatTimer == (if fromRef then Spent else old(repeatTimer))
      ensures strayTimers == (if fromRef then old(strayTimers) else old(strayTimers) - 1)
    {
      currentPlayingIndex := Some(0);
      isRepeating := false;
      if fromRef {
        repeatTimer := Spent;
      } else {
        strayTimers := strayTimers - 1;
      }
    }

    /**
     * The auto-repeat switch, with the effect that runs when its value
     * changes: switching it off cancels the timer the ref holds and hides the
     * banner; play-all and the current line stay as they are.
     */
    method SetAutoRepeat(value: bool)
      requires Valid()
      modifies this`autoRepeat, this`repeatTimer, this`isRepeating
      ensures Valid() && (old(OnLine()) ==> OnLine()) && autoRepeat == value
      ensures old(autoRepeat) && !value && old(repeatTimer) != NoTimer ==>
        repeatTimer == NoTimer && !isRepeating
      ensures !(old(autoRepeat) && !value && old(repeatTimer) != NoTimer) ==>
        repeatTimer == old(repeatTimer) && isRepeating == old(isRepeating)
    {
      var changed := value != autoRepeat;
      autoRepeat := value;
      if changed && !autoRepeat && repeatTimer != NoTimer {
        repeatTimer := NoTimer;
        isRepeating := false;
      }
    }

    /**
     * `stopPlayingAll`, from any state: play-all off, no current line, the
     * ref's timer cancelled, the banner hidden, the queue emptied. The
     * preloaded URLs and overwritten timers are kept.
     */
    method StopPlayingAll()
      requires Valid()
      modifies this`isPlayingAll, this`currentPlayingIndex, this`repeatTimer, this`isRepeating, this`downloadQueue
      ensures Valid() && OnLine()
      ensures !isPlayingAll && currentPlayingIndex.None? && !isRepeating
      ensures repeatTimer == NoTimer && downloadQueue == []
    {
      isPlayingAll := false;
      currentPlayingIndex := None;
      if repeatTimer != NoTimer {
        repeatTimer := NoTimer;
        isRepeating := false;
      }
      downloadQueue := [];
    }

    /** `handleAudioLoaded(index, url)`: record or overwrite the URL of that one line. */
    method HandleAudioLoaded(index: int, url: Option<string>)
      requires Valid()
      modifies this`preloadedAudio
      ensures Valid() && (old(OnLine()) ==> OnLine())
      ensures preloadedAudio == old(preloadedAudio)[index := url]
    {
      preloadedAudio := preloadedAudio[index := url];
    }

    /**
     * `handleNavigate(navigateFunction)`: stop, then navigate if a target is
     * given. The component stays mounted, so the new scenario (`target`, its
     * line count) inherits the preloaded URLs.
     */
    method HandleNavigate(target: Option<nat>)
      requires Valid()
      modifies this
      ensures Valid() && OnLine()
      ensures !isPlayingAll && currentPlayingIndex.None? && !isRepeating
      ensures repeatTimer == NoTimer && downloadQueue == []
      ensures lineCount == if target.Some? then target.value else old(lineCount)
      ensures autoRepeat == old(autoRepeat) && strayTimers == old(strayTimers)
      ensures preloadedAudio == old(preloadedAudio)
    {
      StopPlayingAll();
      if target.Some? {
        lineCount := target.value;
      }
    }

    /** `handleDialogClick(index)`: toggle outside play-all; during play-all, jump to the line. */
    method HandleDialogClick(index: int)
      requires Valid() && 0 <= index < lineCount
      modifies this`currentPlayingIndex
      ensures Valid() && OnLine()
      ensures old(isPlayingAll) ==> currentPlayingIndex == Some(index)
      ensures !old(isPlayingAll) && old(currentPlayingIndex) == Some(index) ==> currentPlayingIndex.None?
      ensures !old(isPlayingAll) && old(currentPlayingIndex) != Some(index) ==> currentPlayingIndex == Some(index)
    {
      if !isPlayingAll {
        PlayConversation(index);
      } else {
        currentPlayingIndex := Some(index);
      }
    }
  }

  /** At most one line is rendered as playing, in either mode. */
  lemma AtMostOneItemPlays(s: Sequencer, i: int, j: int)
    requires i != j
    ensures var fi := s.ItemFlags(i); var fj := s.ItemFlags(j);
      !((fi.0 || fi.1) && (fj.0 || fj.1))
  {
  }

  /**
   * Spells out `OnLine` for play-all in a non-empty scenario: the current
   * line is a line of the scenario. Which handlers establish `OnLine` is
   * stated in their own contracts.
   */
  lemma PlayAllHasLine(s: Sequencer)
    requires s.OnLine() && s.isPlayingAll && s.lineCount >= 1
    ensures s.currentPlayingIndex.Some? && 0 <= s.currentPlayingIndex.value < s.lineCount
  {
  }

  /** Play-all on three lines with nothing preloaded queues lines 1 and 2. */
  lemma ThreeLineQueue()
    ensures IndicesToDownload(3, map[]) == [1, 2]
  {
    assert Range(1, 4) == [1, 2, 3];
    assert KeepUnloaded([3], 3, map[]) == [];
    assert KeepUnloaded([2, 3], 3, map[]) == [2];
    assert KeepUnloaded([1, 2, 3], 3, map[]) == [1, 2];
  }

  /**
   * A run on three lines without auto-repeat: play-all queues lines 1 and
   * 2, plays 0, 1, 2 in order, and ends with nothing selected.
   */
  method PlayThroughRun() returns (queued: seq<int>, played: seq<Option<int>>, playingAfter: bool)
    ensures queued == [1, 2]
    ensures played == [Some(0), Some(1), Some(2), None]
    ensures !playingAfter
  {
    var s := new Sequencer(3);
    s.PlayAllConversation();
    ThreeLineQueue();
    queued := s.downloadQueue;
    var first := s.currentPlayingIndex;
    s.HandleAudioEnded();
    assert s.isPlayingAll && s.currentPlayingIndex == Some(1) && !s.autoRepeat;
    var second := s.currentPlayingIndex;
    s.HandleAudioEnded();
    assert s.isPlayingAll && s.currentPlayingIndex == Some(2) && !s.autoRepeat;
    var third := s.currentPlayingIndex;
    s.HandleAudioEnded();
    played := [first, second, third, s.currentPlayingIndex];
    playingAfter := s.isPlayingAll;
  }

  /**
   * A run on three lines with auto-repeat: after the last line the banner
   * shows, the timer brings play-all back to line 0, and switching
   * auto-repeat off during the next wait leaves play-all on at the last
   * line with the banner gone and the ref cleared.
   */
  method RepeatRun() returns (restartedAt: Option<int>, leftAt: Option<int>, bannerAfter: bool, playingAfter: bool)
    ensures restartedAt == Some(0)
    ensures leftAt == Some(2) && playingAfter && !bannerAfter
  {
    var r := new Sequencer(3);
    r.SetAutoRepeat(true);
    r.PlayAllConversation();
    r.HandleAudioEnded();
    r.HandleAudioEnded();
    r.HandleAudioEnded();
    assert r.isRepeating && r.repeatTimer == Armed;
    r.RepeatTimerFired(true);
    restartedAt := r.currentPlayingIndex;
    r.HandleAudioEnded();
    r.HandleAudioEnded();
    r.HandleAudioEnded();
    r.SetAutoRepeat(false);
    leftAt, bannerAfter, playingAfter := r.currentPlayingIndex, r.isRepeating, r.isPlayingAll;
  }

  /**
   * A late `onPlay` during play-all: line 1 is clicked outside play-all,
   * play-all starts before the reply, and the reply's `onPlay`, made at the
   * click's render, moves play-all from line 0 to line 1.
   */
  method LateOnPlayMovesPlayAll() returns (playingAll: bool, current: Option<int>)
    ensures playingAll && current == Some(1)
  {
    var s := new Sequencer(3);
    var renderedPlayingAll, renderedIndex := s.isPlayingAll, s.currentPlayingIndex;
    s.PlayAllConversation();
    s.PlayConversationFromRender(1, renderedPlayingAll, renderedIndex);
    playingAll, current := s.isPlayingAll, s.currentPlayingIndex;
  }

  /**
   * A late `onPlay` after navigation: line 5 of a six-line scenario is
   * clicked, the view moves to a three-line scenario and starts play-all,
   * and the reply then selects line 5. Play-all is left on at a line the
   * scenario does not have, so no line is rendered as current and no
   * `ended` event can advance it.
   */
  method LateOnPlayAfterNavigation() returns (playingAll: bool, current: Option<int>, lineCount: nat)
    ensures playingAll && current == Some(5) && lineCount == 3
    ensures current.value >= lineCount
  {
    var s := new Sequencer(6);
    var renderedPlayingAll, renderedIndex := s.isPlayingAll, s.currentPlayingIndex;
    s.HandleNavigate(Some(3));
    s.PlayAllConversation();
    s.PlayConversationFromRender(5, renderedPlayingAll, renderedIndex);
    playingAll, current, lineCount := s.isPlayingAll, s.currentPlayingIndex, s.lineCount;
  }

  /**
   * The stalled state of `LateOnPlayAfterNavigation` is not a dead end: a
   * click on a line resumes play-all there, and the Stop button then resets
   * playback.
   */
  method LateOnPlayRecovers() returns (resumedAt: Option<int>, playingAfterStop: bool, currentAfterStop: Option<int>)
    ensures resumedAt == Some(1)
    ensures !playingAfterStop && currentAfterStop.None?
  {
    var s := new Sequencer(6);
    var renderedPlayingAll, renderedIndex := s.isPlayingAll, s.currentPlayingIndex;
    s.HandleNavigate(Some(3));
    s.PlayAllConversation();
    s.PlayConversationFromRender(5, renderedPlayingAll, renderedIndex);
    assert s.isPlayingAll && !s.OnLine();
    s.HandleDialogClick(1);
    assert s.isPlayingAll;
    resumedAt := s.currentPlayingIndex;
    s.StopPlayingAll();
    playingAfterStop, currentAfterStop := s.isPlayingAll, s.currentPlayingIndex;
  }
}
