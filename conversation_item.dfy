/**
 * One line of the detail view, components/conversation-item.tsx: the line's
 * own audio URL and loading flag, the fetch-or-play step, and the effects
 * that adopt a preloaded URL and fetch automatically during play-all.
 * Callbacks into the parent and the request to the audio route are
 * returned as a sequence of calls, in the order the component makes them.
 */
module ConversationItem {
  import opened Types
  import opened Js
  import opened Api
  import opened AudioRoute
  import opened ScenarioDetail

  /** What the item does to the outside world, in order. */
  datatype ItemCall =
    | Fetch(index: int)                            // fetch(`/api/audio?...&index=${index}`)
    | AudioLoaded(index: int, url: Option<string>) // onAudioLoaded(index, data.url)
    | Play                                         // onPlay()

  /** The speaker label: 'Liam' for speaker 0, 'Aria' for every other id. */
  function SpeakerLabel(speakerId: int): (name: string)
    ensures name == "Liam" <==> speakerId == 0
    ensures name == "Aria" <==> speakerId != 0
  {
    if speakerId == 0 then "Liam" else "Aria"
  }

  /**
   * The label names the voice that reads the line only for speakers 0 and 1:
   * narrator lines (speaker 2 and up) are labelled 'Aria' but read by 'Daniel'.
   */
  lemma LabelMatchesVoiceIff(speakerId: int)
    ensures SpeakerLabel(speakerId) == GetVoiceForSpeaker(speakerId) <==> speakerId == 0 || speakerId == 1
  {
  }

  class Item {
    const index: int
    var audioUrl: Option<string>          // audioUrl state; null and undefined are None
    var loading: bool
    var awaiting: bool                    // a fetch issued by this item has not settled
    var clearPending: bool                // the 500 ms timer that clears `loading` is pending
    var preloaded: Option<string>         // the last `preloadedAudio` prop the effect saw
    var currentInQueue: bool              // the last `isCurrentInQueue` prop the effect saw

    /**
     * `loading` is on exactly while a fetch is in flight or its clearing
     * timer is pending, and those two phases do not overlap.
     */
    ghost predicate Valid()
      reads this
    {
      (loading <==> awaiting || clearPending) && !(awaiting && clearPending)
    }

    /** Mounting: the initial URL is the preloaded one when that is truthy. */
    constructor (index: int, preloaded: Option<string>)
      ensures Valid() && this.index == index
      ensures audioUrl == (if Truthy(preloaded) then preloaded else None)
      ensures !loading && !awaiting && !clearPending && !currentInQueue
      ensures this.preloaded == preloaded
    {
      this.index := index;
      audioUrl := if Truthy(preloaded) then preloaded else None;
      loading, awaiting, clearPending := false, false, false;
      this.preloaded := preloaded;
      currentInQueue := false;
    }

    /**
     * `fetchAudio` up to its `await`: with a truthy URL only play; otherwise
     * start loading and request the line's audio. Both callers (the play
     * button, which is disabled while loading, and the auto-fetch effect,
     * which checks `loading`) call it only when no load is under way.
     */
    method FetchAudio() returns (calls: seq<ItemCall>)
      requires Valid() && !loading
      modifies this`loading, this`awaiting
      ensures Valid()
      ensures Truthy(audioUrl) ==> calls == [Play] && !loading && !awaiting
      ensures !Truthy(audioUrl) ==> calls == [Fetch(index)] && loading && awaiting
    {
      if Truthy(audioUrl) {
        return [Play];
      }
      loading := true;
      awaiting := true;
      calls := [Fetch(index)];
    }

    /** The settled fetch: store and report the URL, then play; on failure nothing. */
    method FetchSettled(outcome: FetchOutcome) returns (calls: seq<ItemCall>)
      requires Valid() && awaiting
      modifies this`audioUrl, this`awaiting, this`clearPending
      ensures Valid() && !awaiting && clearPending && loading
      ensures outcome.Delivered? ==>
        audioUrl == outcome.url && calls == [AudioLoaded(index, outcome.url), Play]
      ensures outcome.Threw? ==> audioUrl == old(audioUrl) && calls == []
    {
      match outcome {
        case Delivered(url) =>
          audioUrl := url;
          calls := [AudioLoaded(index, url), Play];
        case Threw =>
          calls := [];
      }
      awaiting := false;
      clearPending := true;
    }

    /** The delayed clear in `finally`. */
    method LoadingTimerFired()
      requires Valid() && clearPending
      modifies this`loading, this`clearPending
      ensures Valid() && !loading && !clearPending
    {
      loading := false;
      clearPending := false;
    }

    /** The play button: nothing while it is disabled, else `fetchAudio`. */
    method ClickPlay(isPlayingAll: bool) returns (calls: seq<ItemCall>)
      requires Valid()
      modifies this`loading, this`awaiting
      ensures Valid()
      ensures PlayButtonDisabled(old(loading), isPlayingAll) ==>
        calls == [] && loading == old(loading) && awaiting == old(awaiting)
      ensures !PlayButtonDisabled(old(loading), isPlayingAll) && Truthy(audioUrl) ==>
        calls == [Play] && !loading
      ensures !PlayButtonDisabled(old(loading), isPlayingAll) && !Truthy(audioUrl) ==>
        calls == [Fetch(index)] && loading && awaiting
    {
      if PlayButtonDisabled(loading, isPlayingAll) {
        return [];
      }
      calls := FetchAudio();
    }

    /**
     * The effect on `preloadedAudio`: when the prop changes to a truthy URL
     * and the item has none, adopt it. A URL the item has is never replaced.
     */
    method PreloadedChanged(p: Option<string>)
      requires Valid()
      modifies this`audioUrl, this`preloaded
      ensures Valid() && preloaded == p
      ensures audioUrl == (if p != old(preloaded) && Truthy(p) && !Truthy(old(audioUrl)) then p else old(audioUrl))
    {
      if p != preloaded {
        preloaded := p;
        if Truthy(p) && !Truthy(audioUrl) {
          audioUrl := p;
        }
      }
    }

    /**
     * The effect on `isCurrentInQueue`: when the item becomes the current
     * line of play-all and has neither a URL nor a load under way, fetch.
     */
    method CurrentInQueueChanged(b: bool) returns (calls: seq<ItemCall>)
      requires Valid()
      modifies this`loading, this`awaiting, this`currentInQueue
      ensures Valid() && currentInQueue == b
      ensures b != old(currentInQueue) && b && !Truthy(audioUrl) && !old(loading) ==>
        calls == [Fetch(index)] && loading && awaiting
      ensures !(b != old(currentInQueue) && b && !Truthy(audioUrl) && !old(loading)) ==>
        calls == [] && loading == old(loading) && awaiting == old(awaiting)
    {
      calls := [];
      if b != currentInQueue {
        currentInQueue := b;
        if b && !Truthy(audioUrl) && !loading {
          calls := FetchAudio();
        }
      }
    }

    /**
     * Whether the `<audio>` element is rendered. `AudioOnlyOnCurrentLine`
     * states the two-way condition under the detail view's flags.
     */
    function AudioElementShown(isPlaying: bool, isPlayingAll: bool): (shown: bool)
      reads this
      ensures shown ==> Truthy(audioUrl)
    {
      Truthy(audioUrl) && (isPlaying || isPlayingAll)
    }
  }

  /**
   * Whether the play button is disabled. `PlayAllDisablesOnlyCurrentButton`
   * states the two-way condition under the detail view's flags.
   */
  function PlayButtonDisabled(loading: bool, isPlayingAll: bool): (disabled: bool)
    ensures loading ==> disabled
  {
    loading || isPlayingAll
  }

  /**
   * Rendered by the detail view with its flags, a line shows its audio
   * element only while it is the current line and has a URL; so two
   * lines never show one at once.
   */
  lemma AudioOnlyOnCurrentLine(s: Sequencer, a: Item, b: Item, i: int, j: int)
    requires i != j
    ensures var f := s.ItemFlags(i);
      a.AudioElementShown(f.0, f.1) <==> s.currentPlayingIndex == Some(i) && Truthy(a.audioUrl)
    ensures var f := s.ItemFlags(i); var g := s.ItemFlags(j);
      !(a.AudioElementShown(f.0, f.1) && b.AudioElementShown(g.0, g.1))
  {
  }

  /**
   * During play-all only the current line's play button is disabled by
   * play-all: every other line's button stays usable unless that line is
   * loading.
   */
  lemma PlayAllDisablesOnlyCurrentButton(s: Sequencer, item: Item, i: int)
    requires s.isPlayingAll
    ensures PlayButtonDisabled(item.loading, s.ItemFlags(i).1) <==>
      item.loading || s.currentPlayingIndex == Some(i)
  {
  }

  /**
   * A line's life when nothing is cached: the first click fetches; a
   * delivered truthy URL is reported before playing; after the loading
   * flag clears, a second click plays with no new request.
   */
  method FetchThenReplay(index: int, url: string) returns (first: seq<ItemCall>, settled: seq<ItemCall>, second: seq<ItemCall>)
    requires url != ""
    ensures first == [Fetch(index)]
    ensures settled == [AudioLoaded(index, Some(url)), Play]
    ensures second == [Play]
  {
    var item := new Item(index, None);
    first := item.ClickPlay(false);
    settled := item.FetchSettled(Delivered(Some(url)));
    item.LoadingTimerFired();
    second := item.ClickPlay(false);
  }

  /**
   * A reply without a URL (the route's error body) is still stored and
   * reported: the item ends with no URL, and clicking again fetches again.
   */
  method ErrorReplyRefetches(index: int) returns (settled: seq<ItemCall>, again: seq<ItemCall>)
    ensures settled == [AudioLoaded(index, None), Play]
    ensures again == [Fetch(index)]
  {
    var item := new Item(index, None);
    var first := item.ClickPlay(false);
    settled := item.FetchSettled(Delivered(None));
    item.LoadingTimerFired();
    again := item.ClickPlay(false);
  }
}
