/**
 * lib/api.ts: voice selection, the audio cache and the synthesis call.
 * The cache directory is a set of file names; the provider call and the
 * download-and-write step are oracles whose outcome is a parameter.
 */
module Api {
  import opened Types
  import opened Js

  /** `getVoiceForSpeaker`: 0 and 1 are named voices, every other id the narrator. */
  function GetVoiceForSpeaker(speakerId: int): (voice: string)
    ensures speakerId == 0 <==> voice == "Liam"
    ensures speakerId == 1 <==> voice == "Aria"
    ensures speakerId != 0 && speakerId != 1 <==> voice == "Daniel"
  {
    if speakerId == 0 then "Liam"
    else if speakerId == 1 then "Aria"
    else "Daniel"
  }

  /** The outcome of the provider call inside `generateAudio`. */
  datatype SynthOutcome = Synthesized(url: string) | SynthesisFailed

  /** The outcome of `fetch(url)` followed by `writeFile` inside `cacheAudio`. */
  datatype DownloadOutcome = Saved | SaveFailed

  /** `generateAudio`: the provider's URL, or the provider's error rethrown (None). */
  function GenerateAudio(outcome: SynthOutcome): (r: Option<string>)
    ensures r.Some? <==> outcome.Synthesized?
    ensures r.Some? ==> r.value == outcome.url
  {
    match outcome
    case Synthesized(url) => Some(url)
    case SynthesisFailed => None
  }

  /** The `index` argument of `cacheAudio`: "summary" or a line number. */
  datatype CacheKey = SummaryKey | LineKey(n: int)

  /** How the key appears in the file name: `${index}`. */
  function KeyText(key: CacheKey): (text: string)
  {
    match key
    case SummaryKey => "summary"
    case LineKey(n) => IntToString(n)
  }

  /** `${scenarioId}_${index}.mp3`. */
  function CacheFileName(scenarioId: string, index: string): (name: string)
  {
    scenarioId + "_" + index + ".mp3"
  }

  /** The cache name is the id, an underscore, the index text and ".mp3", in that order. */
  lemma CacheFileNameParts(scenarioId: string, index: string)
    ensures var name := CacheFileName(scenarioId, index);
      |name| == |scenarioId| + |index| + 5 &&
      name[..|scenarioId|] == scenarioId && name[|scenarioId|] == '_' &&
      name[|scenarioId| + 1..|name| - 4] == index && name[|name| - 4..] == ".mp3"
  {
  }

  /** `/audio-cache/${fileName}`. */
  function PublicPath(fileName: string): (path: string)
    ensures |path| == 13 + |fileName| && path[..13] == "/audio-cache/" && path[13..] == fileName
  {
    "/audio-cache/" + fileName
  }

  /** No `_` occurs in a key's text. */
  lemma KeyTextHasNoUnderscore(key: CacheKey)
    ensures forall i :: 0 <= i < |KeyText(key)| ==> KeyText(key)[i] != '_'
  {
    if key.LineKey? && key.n < 0 {
      var d := NatToString(-key.n);
      assert KeyText(key) == "-" + d;
      assert forall i :: 1 <= i < |KeyText(key)| ==> KeyText(key)[i] == d[i - 1];
    }
  }

  /** "summary" never renders as a number. */
  lemma KeyTextSeparatesSummary(n: int)
    ensures KeyText(LineKey(n)) != KeyText(SummaryKey)
  {
    assert KeyText(SummaryKey)[0] == 's';
  }

  /** In `a + "_" + b`, when `b` has no underscore, the separator is the last underscore. */
  lemma LastUnderscore(a: string, b: string)
    requires forall i :: 0 <= i < |b| ==> b[i] != '_'
    ensures var w := a + "_" + b;
      w[|a|] == '_' && forall j :: |a| < j < |w| ==> w[j] != '_'
  {
    var w := a + "_" + b;
    assert forall j :: |a| < j < |w| ==> w[j] == b[j - |a| - 1];
  }

  /** Splitting `a + "_" + b` at its last underscore, when `b` has none. */
  lemma SplitAtLastUnderscore(a1: string, b1: string, a2: string, b2: string)
    requires forall i :: 0 <= i < |b1| ==> b1[i] != '_'
    requires forall i :: 0 <= i < |b2| ==> b2[i] != '_'
    requires a1 + "_" + b1 == a2 + "_" + b2
    ensures a1 == a2 && b1 == b2
  {
    var w := a1 + "_" + b1;
    LastUnderscore(a1, b1);
    LastUnderscore(a2, b2);
    assert |a1| == |a2|;
    assert a1 == w[..|a1|] == a2;
    assert b1 == w[|a1| + 1..] == b2;
  }

  /**
   * Different (scenario, key) pairs never share a cache file: the name
   * written by `cacheAudio` determines both the scenario id and the key.
   */
  lemma CacheFileNameInjective(s1: string, k1: CacheKey, s2: string, k2: CacheKey)
    requires CacheFileName(s1, KeyText(k1)) == CacheFileName(s2, KeyText(k2))
    ensures s1 == s2 && k1 == k2
  {
    var w1 := s1 + "_" + KeyText(k1);
    var w2 := s2 + "_" + KeyText(k2);
    assert w1 == CacheFileName(s1, KeyText(k1))[..|w1|];
    assert w2 == CacheFileName(s2, KeyText(k2))[..|w2|];
    assert w1 == w2;
    KeyTextHasNoUnderscore(k1);
    KeyTextHasNoUnderscore(k2);
    SplitAtLastUnderscore(s1, KeyText(k1), s2, KeyText(k2));
    match k1
    case SummaryKey =>
      if k2.LineKey? { KeyTextSeparatesSummary(k2.n); }
    case LineKey(m) =>
      if k2.SummaryKey? { KeyTextSeparatesSummary(m); }
      else { IntToStringInjective(m, k2.n); }
  }

  /** The public directory `public/audio-cache`, as the set of its file names. */
  class FileStore {
    var files: set<string>

    constructor (files: set<string>)
      ensures this.files == files
    {
      this.files := files;
    }
  }

  /**
   * `cacheAudio(url, scenarioId, index)`. Returns the URL to hand out and
   * whether the remote file was fetched. A file already present is used
   * without a download; a successful download adds the file and yields its
   * public path; a failed one leaves the store alone and yields `url`.
   */
  method CacheAudio(store: FileStore, url: string, scenarioId: string, key: CacheKey,
                    download: DownloadOutcome)
    returns (result: string, fetched: bool)
    modifies store
    ensures var name := CacheFileName(scenarioId, KeyText(key));
      if name in old(store.files) then
        result == PublicPath(name) && !fetched && store.files == old(store.files)
      else if download.Saved? then
        result == PublicPath(name) && fetched && store.files == old(store.files) + {name}
      else
        result == url && fetched && store.files == old(store.files)
  {
    var fileName := CacheFileName(scenarioId, KeyText(key));
    var publicPath := PublicPath(fileName);
    if fileName in store.files {
      return publicPath, false;
    }
    fetched := true;
    match download {
      case Saved =>
        store.files := store.files + {fileName};
        result := publicPath;
      case SaveFailed =>
        result := url;
    }
  }

  /** A second `cacheAudio` for the same key answers from the file the first one wrote. */
  method CacheAudioTwice(url1: string, url2: string, scenarioId: string, key: CacheKey,
                         files: set<string>, d1: DownloadOutcome, d2: DownloadOutcome)
    returns (r1: string, r2: string, fetched2: bool)
    ensures d1.Saved? ==> r1 == r2 == PublicPath(CacheFileName(scenarioId, KeyText(key))) && !fetched2
    ensures d1.SaveFailed? && CacheFileName(scenarioId, KeyText(key)) !in files ==> r1 == url1 && fetched2
  {
    var store := new FileStore(files);
    var f1;
    r1, f1 := CacheAudio(store, url1, scenarioId, key, d1);
    r2, fetched2 := CacheAudio(store, url2, scenarioId, key, d2);
  }
}
