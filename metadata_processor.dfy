/**
 * src/core/metadata_processor.py: lazily extracted media metadata and the lookup of the
 * General, Video and Audio tracks.
 *
 * `MediaInfo.parse` is an external call: `MediaInfo` below answers it from a fixed
 * description of every file and counts how often it is asked.
 */
module MetadataProcessing {
  import opened Wrappers

  /** What `track.to_data()` gives: the track's attributes by name. */
  type Payload = map<string, string>

  /** One track of the parsed media: its `track_type` and its data. */
  datatype MediaTrack = MediaTrack(trackType: string, payload: Payload)

  const General: string := "General"
  const Video: string := "Video"
  const Audio: string := "Audio"

  /** The payload of the first track of type `kind`, or `None` when there is none. */
  function FirstOfType(tracks: seq<MediaTrack>, kind: string): (r: Option<Payload>)
    ensures r.None? <==> forall i :: 0 <= i < |tracks| ==> tracks[i].trackType != kind
    ensures r.Some? ==> exists i :: (0 <= i < |tracks| && tracks[i].trackType == kind
      && r.value == tracks[i].payload
      && forall j :: 0 <= j < i ==> tracks[j].trackType != kind)
  {
    if |tracks| == 0 then None
    else if tracks[0].trackType == kind then Some(tracks[0].payload)
    else
      var r := FirstOfType(tracks[1..], kind);
      assert forall i :: 1 <= i < |tracks| ==> tracks[i] == tracks[1..][i - 1];
      r
  }

  /** The loop of `__get_general_info` and its two siblings: scan in order, return the first match. */
  method FindFirstTrack(tracks: seq<MediaTrack>, kind: string) returns (r: Option<Payload>)
    ensures r == FirstOfType(tracks, kind)
  {
    for i := 0 to |tracks|
      invariant forall j :: 0 <= j < i ==> tracks[j].trackType != kind
    {
      if tracks[i].trackType == kind {
        FirstOfTypeAt(tracks, kind, i);
        return Some(tracks[i].payload);
      }
    }
    return None;
  }

  /** The first match fixes the answer: everything after it is irrelevant. */
  lemma FirstOfTypeAt(tracks: seq<MediaTrack>, kind: string, i: nat)
    requires i < |tracks| && tracks[i].trackType == kind
    requires forall j :: 0 <= j < i ==> tracks[j].trackType != kind
    ensures FirstOfType(tracks, kind) == Some(tracks[i].payload)
  {
  }

  /** `pymediainfo.MediaInfo`: parses a file into its tracks, counting the calls. */
  class MediaInfo {
    /** The tracks each file holds. */
    const describe: string -> seq<MediaTrack>
    var parseCalls: nat

    constructor (describe: string -> seq<MediaTrack>)
      ensures this.describe == describe && parseCalls == 0
    {
      this.describe := describe;
      parseCalls := 0;
    }

    /** `MediaInfo.parse(path).to_data()`, reduced to its track list. */
    method Parse(path: string) returns (tracks: seq<MediaTrack>)
      modifies this
      ensures tracks == describe(path) && parseCalls == old(parseCalls) + 1
    {
      tracks := describe(path);
      parseCalls := parseCalls + 1;
    }
  }

  class MetadataProcessor {
    const filePath: string
    /** `self.data`: `None` until the first extraction. */
    var data: Option<seq<MediaTrack>>

    constructor (filePath: string)
      ensures this.filePath == filePath && data == None
    {
      this.filePath := filePath;
      data := None;
    }

    /** `__extract_metadata` */
    method ExtractMetadata(mediaInfo: MediaInfo)
      modifies this, mediaInfo
      ensures data == Some(mediaInfo.describe(filePath))
      ensures mediaInfo.parseCalls == old(mediaInfo.parseCalls) + 1
    {
      var tracks := mediaInfo.Parse(filePath);
      data := Some(tracks);
    }

    /** `__get_general_info` */
    method GetGeneralInfo() returns (r: Option<Payload>)
      requires data.Some?
      ensures r.None? <==> forall i :: 0 <= i < |data.value| ==> data.value[i].trackType != General
      ensures r == FirstOfType(data.value, General)
    {
      r := FindFirstTrack(data.value, General);
    }

    /** `__get_video_info` */
    method GetVideoInfo() returns (r: Option<Payload>)
      requires data.Some?
      ensures r.None? <==> forall i :: 0 <= i < |data.value| ==> data.value[i].trackType != Video
      ensures r == FirstOfType(data.value, Video)
    {
      r := FindFirstTrack(data.value, Video);
    }

    /** `__get_audio_info` */
    method GetAudioInfo() returns (r: Option<Payload>)
      requires data.Some?
      ensures r.None? <==> forall i :: 0 <= i < |data.value| ==> data.value[i].trackType != Audio
      ensures r == FirstOfType(data.value, Audio)
    {
      r := FindFirstTrack(data.value, Audio);
    }

    /**
     * `get_metadata`: extracts only when nothing was extracted yet, then returns the general,
     * video and audio payloads, in that order.
     */
    method GetMetadata(mediaInfo: MediaInfo) returns (general: Option<Payload>, video: Option<Payload>, audio: Option<Payload>)
      modifies this, mediaInfo
      ensures old(data).Some? ==> data == old(data) && mediaInfo.parseCalls == old(mediaInfo.parseCalls)
      ensures old(data).None? ==> data == Some(mediaInfo.describe(filePath))
      ensures old(data).None? ==> mediaInfo.parseCalls == old(mediaInfo.parseCalls) + 1
      ensures data.Some?
      ensures general == FirstOfType(data.value, General)
      ensures video == FirstOfType(data.value, Video)
      ensures audio == FirstOfType(data.value, Audio)
    {
      if data.None? {
        ExtractMetadata(mediaInfo);
      }
      general := GetGeneralInfo();
      video := GetVideoInfo();
      audio := GetAudioInfo();
    }
  }

  /**
   * Any number of `get_metadata` calls on a fresh processor parse the file exactly once, and
   * every call returns the same triple.
   */
  method GetMetadataRepeatedly(processor: MetadataProcessor, mediaInfo: MediaInfo, calls: nat)
    returns (results: seq<(Option<Payload>, Option<Payload>, Option<Payload>)>)
    requires processor.data == None && calls > 0
    modifies processor, mediaInfo
    ensures mediaInfo.parseCalls == old(mediaInfo.parseCalls) + 1
    ensures processor.data == Some(mediaInfo.describe(processor.filePath))
    ensures |results| == calls
    ensures forall k :: 0 <= k < calls ==> results[k] == results[0]
  {
    results := [];
    while |results| < calls
      invariant |results| <= calls
      invariant |results| == 0 ==> processor.data == None && mediaInfo.parseCalls == old(mediaInfo.parseCalls)
      invariant |results| > 0 ==> processor.data == Some(mediaInfo.describe(processor.filePath))
      invariant |results| > 0 ==> mediaInfo.parseCalls == old(mediaInfo.parseCalls) + 1
      invariant forall k :: 0 <= k < |results| ==> results[k] == results[0]
      invariant |results| > 0 ==> results[0] == Triple(mediaInfo.describe(processor.filePath))
    {
      var general, video, audio := processor.GetMetadata(mediaInfo);
      results := results + [(general, video, audio)];
    }
  }

  /** The triple `get_metadata` returns for a parsed track list. */
  function Triple(tracks: seq<MediaTrack>): (Option<Payload>, Option<Payload>, Option<Payload>)
  {
    (FirstOfType(tracks, General), FirstOfType(tracks, Video), FirstOfType(tracks, Audio))
  }

  /** With no tracks all three slots are `None`; a missing type is `None` only in its own slot. */
  lemma MissingTracks(g: Payload, v: Payload, a: Payload)
    ensures Triple([]) == (None, None, None)
    ensures Triple([MediaTrack(General, g)]) == (Some(g), None, None)
    ensures Triple([MediaTrack(Video, v)]) == (None, Some(v), None)
    ensures Triple([MediaTrack(Audio, a)]) == (None, None, Some(a))
    ensures Triple([MediaTrack(General, g), MediaTrack(Audio, a)]) == (Some(g), None, Some(a))
    ensures Triple([MediaTrack(General, g), MediaTrack(Video, v), MediaTrack(Audio, a)]) == (Some(g), Some(v), Some(a))
  {
    var all := [MediaTrack(General, g), MediaTrack(Video, v), MediaTrack(Audio, a)];
    FirstOfTypeAt(all, Video, 1);
    FirstOfTypeAt(all, Audio, 2);
  }
}
