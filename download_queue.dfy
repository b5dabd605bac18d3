/**
 * The prefetch queue of components/audio/download-queue.tsx. The queue itself
 * is the detail view's `downloadQueue`; this component owns only the busy
 * flag, and the index its pending fetch works on. A fetch is two events:
 * `ProcessDownloadQueue` issues it, `DownloadCompleted` delivers its outcome.
 */
module DownloadQueue {
  import opened Types
  import opened AudioRoute
  import opened ScenarioDetail

  /** `prev.filter(idx => idx !== x)`: every copy of `x` removed, the rest kept in order. */
  function RemoveAll(q: seq<int>, x: int): (r: seq<int>)
    ensures x !in r
    ensures forall y :: y in r <==> y in q && y != x
    ensures multiset(r) == multiset(q)[x := 0]
    ensures Subsequence(r, q)
    ensures x in q ==> |r| < |q|
    ensures |r| <= |q|
  {
    if q == [] then []
    else
      var rest := RemoveAll(q[1..], x);
      assert q == [q[0]] + q[1..];
      if q[0] == x then
        SubsequenceOfTail(rest, q);
        rest
      else
        assert ([q[0]] + rest)[1..] == rest;
        [q[0]] + rest
  }

  /**
   * The indices fetched when processing runs uninterrupted from queue `q`:
   * the head, then whatever the filtered queue yields.
   */
  function Drain(q: seq<int>): (fetched: seq<int>)
    ensures forall i, j :: 0 <= i < j < |fetched| ==> fetched[i] != fetched[j]
    ensures forall y :: y in fetched <==> y in q
    ensures |fetched| <= |q|
    ensures q != [] ==> fetched != [] && fetched[0] == q[0]
    decreases |q|
  {
    if q == [] then [] else [q[0]] + Drain(RemoveAll(q, q[0]))
  }

  /** The preloaded URLs after `onAudioLoaded` for one outcome. */
  function Record(m: map<int, Option<string>>, index: int, outcome: FetchOutcome): (r: map<int, Option<string>>)
  {
    match outcome
    case Delivered(u) => m[index := u]
    case Threw => m
  }

  /** The outcome the oracle gives for `index`; an index it does not list fails. */
  function OutcomeFor(responses: map<int, FetchOutcome>, index: int): (outcome: FetchOutcome)
  {
    if index in responses then responses[index] else Threw
  }

  /** The preloaded URLs after the fetches `fetched`, in that order. */
  function RecordAll(m: map<int, Option<string>>, fetched: seq<int>, responses: map<int, FetchOutcome>)
    : (r: map<int, Option<string>>)
  {
    if fetched == [] then m
    else
      var last := fetched[|fetched| - 1];
      Record(RecordAll(m, fetched[..|fetched| - 1], responses), last, OutcomeFor(responses, last))
  }

  /** One more fetch appends one more step to the record. */
  lemma RecordAllSnoc(m: map<int, Option<string>>, fetched: seq<int>, index: int,
                      responses: map<int, FetchOutcome>)
    ensures RecordAll(m, fetched + [index], responses)
         == Record(RecordAll(m, fetched, responses), index, OutcomeFor(responses, index))
  {
    assert (fetched + [index])[..|fetched|] == fetched;
  }

  /** Processing from a non-empty queue fetches its head and then drains the filtered rest. */
  lemma DrainStep(q: seq<int>, fetched: seq<int>, rest: seq<int>)
    requires q != [] && rest == RemoveAll(q, q[0])
    ensures fetched + Drain(q) == (fetched + [q[0]]) + Drain(rest)
  {
  }

  /**
   * On a run of processing, a key gains a URL only if it was fetched and
   * its fetch delivered: failed fetches leave the map alone.
   */
  lemma {:induction false} RecordAllKeys(m: map<int, Option<string>>, fetched: seq<int>,
                                         responses: map<int, FetchOutcome>, k: int)
    ensures k in RecordAll(m, fetched, responses) <==>
      k in m || (k in fetched && k in responses && responses[k].Delivered?)
    decreases |fetched|
  {
    if fetched != [] {
      var init := fetched[..|fetched| - 1];
      RecordAllKeys(m, init, responses, k);
      assert fetched == init + [fetched[|fetched| - 1]];
    }
  }

  class Prefetcher {
    var isDownloading: bool
    var inFlight: Option<int>     // `indexToDownload` of the pending fetch

    /** One fetch at most is in flight, and the flag says whether there is one. */
    ghost predicate Valid()
      reads this
    {
      isDownloading <==> inFlight.Some?
    }

    constructor ()
      ensures Valid() && !isDownloading
    {
      isDownloading := false;
      inFlight := None;
    }

    /**
     * `processDownloadQueue` up to its `await`: nothing when the queue is
     * empty or a fetch is in flight; otherwise mark busy and request the head.
     */
    method ProcessDownloadQueue(detail: Sequencer) returns (request: Option<int>)
      requires Valid()
      modifies this
      ensures Valid()
      ensures |detail.downloadQueue| == 0 || old(isDownloading) ==>
        request.None? && isDownloading == old(isDownloading) && inFlight == old(inFlight)
      ensures |detail.downloadQueue| > 0 && !old(isDownloading) ==>
        request == Some(detail.downloadQueue[0]) && isDownloading && inFlight == request
    {
      if |detail.downloadQueue| == 0 || isDownloading {
        return None;
      }
      isDownloading := true;
      var indexToDownload := detail.downloadQueue[0];
      inFlight := Some(indexToDownload);
      request := inFlight;
    }

    /**
     * The rest of `processDownloadQueue`: on a delivered reply report the URL
     * once, and in both cases filter every copy of the index out of the queue
     * as it is now; then clear the busy flag.
     */
    method DownloadCompleted(detail: Sequencer, outcome: FetchOutcome)
      requires Valid() && isDownloading && detail.Valid()
      modifies this, detail`downloadQueue, detail`preloadedAudio
      ensures Valid() && !isDownloading && detail.Valid()
      ensures detail.downloadQueue == RemoveAll(old(detail.downloadQueue), old(inFlight).value)
      ensures detail.preloadedAudio == Record(old(detail.preloadedAudio), old(inFlight).value, outcome)
    {
      var indexToDownload := inFlight.value;
      match outcome {
        case Delivered(url) =>
          detail.HandleAudioLoaded(indexToDownload, url);
        case Threw =>
      }
      var queue := RemoveAll(detail.downloadQueue, indexToDownload);
      assert forall k :: 0 <= k < |queue| ==> queue[k] in detail.downloadQueue;
      detail.downloadQueue := queue;
      isDownloading := false;
      inFlight := None;
    }

    /**
     * The effect that re-runs processing whenever the queue or the flag
     * changes, with no other event in between: it drains the queue, fetches
     * each distinct index once, the head first, and records the delivered
     * URLs.
     */
    method RunQueue(detail: Sequencer, responses: map<int, FetchOutcome>) returns (fetched: seq<int>)
      requires Valid() && !isDownloading && detail.Valid()
      modifies this, detail`downloadQueue, detail`preloadedAudio
      ensures Valid() && !isDownloading && detail.Valid()
      ensures detail.downloadQueue == []
      ensures fetched == Drain(old(detail.downloadQueue))
      ensures detail.preloadedAudio == RecordAll(old(detail.preloadedAudio), fetched, responses)
    {
      fetched := [];
      while |detail.downloadQueue| > 0
        invariant Valid() && !isDownloading && detail.Valid()
        invariant fetched + Drain(detail.downloadQueue) == Drain(old(detail.downloadQueue))
        invariant detail.preloadedAudio == RecordAll(old(detail.preloadedAudio), fetched, responses)
        decreases |detail.downloadQueue|
      {
        ghost var before := detail.downloadQueue;
        var request := ProcessDownloadQueue(detail);
        var index := request.value;
        DownloadCompleted(detail, OutcomeFor(responses, index));
        DrainStep(before, fetched, detail.downloadQueue);
        RecordAllSnoc(old(detail.preloadedAudio), fetched, index, responses);
        fetched := fetched + [index];
      }
    }
  }

  /** Processing from a queue with a repeated index fetches that index once. */
  lemma DuplicateFetchedOnce(q: seq<int>, x: int)
    requires multiset(q)[x] >= 2
    ensures multiset(Drain(q))[x] == 1
  {
    var d := Drain(q);
    assert x in q;
    assert x in d;
    var i :| 0 <= i < |d| && d[i] == x;
    assert d == d[..i] + [x] + d[i + 1..];
    assert x !in d[..i] && x !in d[i + 1..];
  }
}
