/**
 * Transcript acquisition: the video id scanner and the two-tier strategy
 * (captions service first, then audio download and speech-to-text).
 */
module Transcription {
  import opened Base
  import opened Text

  /** Characters that end a video id. */
  predicate IsIdStop(c: char) {
    c == '&' || c == '#'
  }

  /**
   * An id can start at position `p`: `marker` ends right before `p`, and the
   * character at `p` can belong to an id.
   */
  predicate MatchesAt(url: string, marker: string, p: int) {
    |marker| <= p < |url| && url[p - |marker|..p] == marker && !IsIdStop(url[p])
  }

  /** The leftmost position at or after `from` where an id can start after `marker`. */
  function FindMatch(url: string, marker: string, from: nat): (r: Option<nat>)
    ensures r.Some? ==> from <= r.value && MatchesAt(url, marker, r.value)
    ensures r.Some? ==> forall q :: from <= q < r.value ==> !MatchesAt(url, marker, q)
    ensures r.None? ==> forall q :: from <= q ==> !MatchesAt(url, marker, q)
    decreases |url| - from
  {
    if from >= |url| then None
    else if MatchesAt(url, marker, from) then Some(from)
    else FindMatch(url, marker, from + 1)
  }

  /** The end of the run of id characters that starts at `p`. */
  function IdEnd(url: string, p: nat): (e: nat)
    requires p <= |url|
    ensures p <= e <= |url|
    ensures forall i :: p <= i < e ==> !IsIdStop(url[i])
    ensures e == |url| || IsIdStop(url[e])
    decreases |url| - p
  {
    if p == |url| || IsIdStop(url[p]) then p else IdEnd(url, p + 1)
  }

  /** The longest run of id characters starting at `p`. */
  function IdAt(url: string, p: nat): string
    requires p <= |url|
  {
    url[p..IdEnd(url, p)]
  }

  /**
   * `extract_video_id`: the longest run of characters other than `&` and
   * `#` that follows the leftmost `v=` followed by such a character; only
   * when there is no such `v=`, the same after the leftmost `be/`; None when
   * neither occurs. An id is never empty and never holds `&` or `#`.
   */
  function ExtractVideoId(url: string): (r: Option<string>)
    ensures r.Some? ==> r.value != "" && forall i :: 0 <= i < |r.value| ==> !IsIdStop(r.value[i])
    ensures forall p :: MatchesAt(url, "v=", p) && (forall q :: 0 <= q < p ==> !MatchesAt(url, "v=", q))
              ==> r == Some(IdAt(url, p))
    ensures (forall p :: !MatchesAt(url, "v=", p)) ==>
              forall p :: MatchesAt(url, "be/", p) && (forall q :: 0 <= q < p ==> !MatchesAt(url, "be/", q))
                ==> r == Some(IdAt(url, p))
    ensures r.None? <==> forall p :: !MatchesAt(url, "v=", p) && !MatchesAt(url, "be/", p)
  {
    match FindMatch(url, "v=", 0)
    case Some(p) =>
      UniqueLeftmost(url, "v=", p);
      Some(IdAt(url, p))
    case None =>
      match FindMatch(url, "be/", 0)
      case Some(p) =>
        UniqueLeftmost(url, "be/", p);
        Some(IdAt(url, p))
      case None => None
  }

  /** The leftmost match position is the one the scan finds. */
  lemma UniqueLeftmost(url: string, marker: string, p: nat)
    requires FindMatch(url, marker, 0) == Some(p)
    ensures forall p' :: MatchesAt(url, marker, p') && (forall q :: 0 <= q < p' ==> !MatchesAt(url, marker, q))
              ==> p' == p
  {
    forall p' | MatchesAt(url, marker, p') && (forall q :: 0 <= q < p' ==> !MatchesAt(url, marker, q))
      ensures p' == p
    {
      assert !(p' < p) && !(p < p');
    }
  }

  /** The answer of the captions service for a video id. */
  datatype Captions =
    | Fetched(fragments: seq<string>)  // the caption fragments' texts, in order
    | TranscriptsDisabled
    | FetchFailed                      // any other exception

  /**
   * The external media services: the captions service (English captions
   * for an id), the audio download (true when the audio of the URL was
   * written to the audio file) and speech-to-text (the text of the URL's
   * audio, or None when loading the model or transcribing raised).
   */
  datatype MediaServices = MediaServices(
    captions: string -> Captions,
    download: string -> bool,
    transcribe: string -> Option<string>)

  /** The file the audio download writes. */
  const AUDIO_FILE: string := "downloaded_audio.mp3"

  /** The external calls made while acquiring a transcript, in order. */
  datatype Call =
    | FetchCaptions(videoId: string)
    | DownloadAudio(url: string)
    | TranscribeFile(path: string)
    | RemoveFile(path: string)

  /** What acquisition does to the audio file. */
  datatype AudioEffect = NoAudio | AudioWritten | AudioWrittenAndRemoved

  datatype Acquisition = Acquisition(result: Result<string>, calls: seq<Call>, audio: AudioEffect)

  /**
   * `get_transcript`: an unparseable URL fails with ValueError before any
   * call; otherwise the retrieval runs on the extracted id.
   */
  function Acquire(url: string, svc: MediaServices): (a: Acquisition)
    ensures ExtractVideoId(url).None? ==> a.result == Err(ValueError) && a.calls == [] && a.audio == NoAudio
    ensures ExtractVideoId(url).Some? ==> a == AcquireFor(ExtractVideoId(url).value, url, svc)
    ensures a.result == Err(ValueError) <==> ExtractVideoId(url).None?
  {
    match ExtractVideoId(url)
    case None => Acquisition(Err(ValueError), [], NoAudio)
    case Some(id) => AcquireFor(id, url, svc)
  }

  /**
   * The retrieval once the video id is known: captions first, and when they
   * are fetched their fragments joined with single spaces end it; any
   * captions failure falls through to exactly one audio download, and a
   * written audio file is transcribed; the fallback's text is the speech
   * recogniser's, and it fails (with RuntimeError) exactly when the
   * download or the transcription does; the audio file is removed exactly
   * when transcription succeeded, and left behind only on a failure.
   */
  function AcquireFor(id: string, url: string, svc: MediaServices): (a: Acquisition)
    ensures a.calls != [] && a.calls[0] == FetchCaptions(id)
    ensures svc.captions(id).Fetched? ==>
              a.result == Ok(Join(" ", svc.captions(id).fragments)) && |a.calls| == 1 && a.audio == NoAudio
    ensures !svc.captions(id).Fetched? ==>
              |a.calls| >= 2 && a.calls[1] == DownloadAudio(url)
              && forall i :: 2 <= i < |a.calls| ==> !a.calls[i].DownloadAudio? && !a.calls[i].FetchCaptions?
    ensures a.result.Err? ==> a.result.error == RuntimeError
    ensures a.audio == AudioWrittenAndRemoved <==> a.result.Ok? && |a.calls| > 1
    ensures RemoveFile(AUDIO_FILE) in a.calls <==> a.audio == AudioWrittenAndRemoved
    ensures a.audio == AudioWritten ==> a.result == Err(RuntimeError)
    ensures !svc.captions(id).Fetched? ==>
              (a.result.Ok? <==> svc.download(url) && svc.transcribe(url).Some?)
    ensures !svc.captions(id).Fetched? && a.result.Ok? ==> a.result.value == svc.transcribe(url).value
    ensures !svc.captions(id).Fetched? && svc.download(url) ==>
              |a.calls| >= 3 && a.calls[..3] == [FetchCaptions(id), DownloadAudio(url), TranscribeFile(AUDIO_FILE)]
              && a.audio != NoAudio
    ensures !svc.captions(id).Fetched? && !svc.download(url) ==>
              a.calls == [FetchCaptions(id), DownloadAudio(url)] && a.audio == NoAudio
  {
    match svc.captions(id)
    case Fetched(fragments) => Acquisition(Ok(Join(" ", fragments)), [FetchCaptions(id)], NoAudio)
    case _ =>
      if !svc.download(url) then
        Acquisition(Err(RuntimeError), [FetchCaptions(id), DownloadAudio(url)], NoAudio)
      else
        var calls := [FetchCaptions(id), DownloadAudio(url), TranscribeFile(AUDIO_FILE)];
        match svc.transcribe(url)
        case None => Acquisition(Err(RuntimeError), calls, AudioWritten)
        case Some(text) => Acquisition(Ok(text), calls + [RemoveFile(AUDIO_FILE)], AudioWrittenAndRemoved)
  }

  /** The local disk, as the set of file paths that exist. */
  class Disk {
    var files: set<string>

    constructor (files: set<string>)
      ensures this.files == files
    {
      this.files := files;
    }
  }

  /** The files on disk after an acquisition that started with `before`. */
  function FilesAfter(before: set<string>, audio: AudioEffect): set<string> {
    match audio
    case NoAudio => before
    case AudioWritten => before + {AUDIO_FILE}
    case AudioWrittenAndRemoved => before - {AUDIO_FILE}
  }

  /**
   * `get_transcript`, step by step against the services and the disk: the
   * result and the calls made are those of Acquire, and the disk changes
   * only in the audio file.
   */
  method GetTranscript(url: string, svc: MediaServices, disk: Disk) returns (r: Result<string>, calls: seq<Call>)
    modifies disk
    ensures r == Acquire(url, svc).result && calls == Acquire(url, svc).calls
    ensures disk.files == FilesAfter(old(disk.files), Acquire(url, svc).audio)
  {
    var videoId := ExtractVideoId(url);
    if videoId.None? {
      return Err(ValueError), [];
    }
    r, calls := TranscriptFor(videoId.value, url, svc, disk);
  }

  /** The two retrieval methods for a known video id. */
  method TranscriptFor(id: string, url: string, svc: MediaServices, disk: Disk) returns (r: Result<string>, calls: seq<Call>)
    modifies disk
    ensures r == AcquireFor(id, url, svc).result && calls == AcquireFor(id, url, svc).calls
    ensures disk.files == FilesAfter(old(disk.files), AcquireFor(id, url, svc).audio)
  {
    // Primary: the captions service.
    calls := [FetchCaptions(id)];
    var captions := svc.captions(id);
    if captions.Fetched? {
      return Ok(Join(" ", captions.fragments)), calls;
    }

    // Fallback: download the audio and transcribe it.
    calls := calls + [DownloadAudio(url)];
    if !svc.download(url) {
      return Err(RuntimeError), calls;
    }
    disk.files := disk.files + {AUDIO_FILE};
    calls := calls + [TranscribeFile(AUDIO_FILE)];
    var text := svc.transcribe(url);
    if text.None? {
      return Err(RuntimeError), calls;
    }
    calls := calls + [RemoveFile(AUDIO_FILE)];
    disk.files := disk.files - {AUDIO_FILE};
    r := Ok(text.value);
  }
}
