/** The URLs the handlers hand out: presigned page uploads, per-page audio on the CDN,
    and the voice-registration upload plan with its derived voice identifier. */
module Urls {
  import opened Base
  import opened Settings
  import Text

  const UploadsBase := "https://uploads.tanoshi.app"

  /** One entry of an upload plan. */
  datatype PresignedPut = PresignedPut(index: int, putUrl: string, contentType: string, maxBytes: int)

  /** The placeholder presigned PUT for page `idx` of a job: a PNG of at most 3,000,000
      bytes, named by the index in three or more digits. */
  function MakePresignedPut(jobId: string, idx: nat): (p: PresignedPut)
    ensures p.index == idx && p.contentType == "image/png" && p.maxBytes == 3000000
  {
    PresignedPut(
      idx,
      UploadsBase + "/narration/" + jobId + "/pages/" + Text.ZeroPad3(idx) + ".png?signature=fake",
      "image/png",
      3000000)
  }

  /** Pages of one job upload to different URLs, and the page number is read back from
      the file name. */
  lemma PresignedPutDistinct(jobId: string, i: nat, j: nat)
    ensures MakePresignedPut(jobId, i).putUrl == MakePresignedPut(jobId, j).putUrl <==> i == j
  {
    if MakePresignedPut(jobId, i).putUrl == MakePresignedPut(jobId, j).putUrl {
      var p := UploadsBase + "/narration/" + jobId + "/pages/";
      var q := ".png?signature=fake";
      assert p + Text.ZeroPad3(i) + q == p + Text.ZeroPad3(j) + q;
      Text.SameFrame(p, Text.ZeroPad3(i), Text.ZeroPad3(j), q);
    }
  }

  /** `_audio_url(job_id, idx)`: the page's HLS playlist on the CDN. `idx` is whatever is
      formatted into the path: a page number, or the literal "{index}" of the template. */
  function AudioUrl(cdnBase: string, jobId: string, idx: string): (url: string)
    ensures |url| == |cdnBase| + |jobId| + |idx| + 24
  {
    cdnBase + "/audio/" + jobId + "/page-" + idx + "/index.m3u8"
  }

  /** The playlist URL is read back part by part: the CDN base, `/audio/`, the job id,
      `/page-`, the page part and `/index.m3u8`, at fixed offsets. */
  lemma AudioUrlParts(cdnBase: string, jobId: string, idx: string)
    ensures var url := AudioUrl(cdnBase, jobId, idx);
      var j := |cdnBase| + 7;
      var k := j + |jobId| + 6;
      && url[..|cdnBase|] == cdnBase
      && url[|cdnBase|..j] == "/audio/"
      && url[j..j + |jobId|] == jobId
      && url[j + |jobId|..k] == "/page-"
      && url[k..k + |idx|] == idx
      && url[k + |idx|..] == "/index.m3u8"
  {
  }

  /** The audio URL of page `i`. */
  function PageAudioUrl(cdnBase: string, jobId: string, i: nat): string {
    AudioUrl(cdnBase, jobId, Text.Decimal(i))
  }

  /** Pages of one job have different audio URLs. */
  lemma PageAudioUrlDistinct(cdnBase: string, jobId: string, i: nat, j: nat)
    ensures PageAudioUrl(cdnBase, jobId, i) == PageAudioUrl(cdnBase, jobId, j) <==> i == j
  {
    if PageAudioUrl(cdnBase, jobId, i) == PageAudioUrl(cdnBase, jobId, j) {
      var p := cdnBase + "/audio/" + jobId + "/page-";
      var q := "/index.m3u8";
      assert p + Text.Decimal(i) + q == p + Text.Decimal(j) + q;
      Text.SameFrame(p, Text.Decimal(i), Text.Decimal(j), q);
      Text.DecimalInjective(i, j);
    }
  }

  /** The name part of a voice identifier: spaces become `-`, then letters are lower-cased. */
  function VoiceSlug(name: string): (slug: string)
    ensures |slug| == |name|
    ensures forall i :: 0 <= i < |name| ==>
      slug[i] == if name[i] == ' ' then '-' else Text.LowerChar(name[i])
  {
    Text.Lower(Text.ReplaceChar(name, ' ', '-'))
  }

  /** `sovits:` followed by the slug of the voice's name. */
  function VoiceId(name: string): string {
    "sovits:" + VoiceSlug(name)
  }

  /** A slug has no spaces and no upper-case letters. */
  predicate Normalised(slug: string) {
    forall i :: 0 <= i < |slug| ==> slug[i] != ' ' && !('A' <= slug[i] <= 'Z')
  }

  /** Deriving the slug is a normalisation: every slug is normalised, a normalised name
      is its own slug, so deriving twice gives the same identifier as deriving once. */
  lemma VoiceSlugNormalises(name: string)
    ensures Normalised(VoiceSlug(name))
    ensures Normalised(name) ==> VoiceSlug(name) == name
    ensures VoiceSlug(VoiceSlug(name)) == VoiceSlug(name)
  {
    var s := VoiceSlug(name);
    assert Normalised(s);
    if Normalised(name) {
      assert forall i :: 0 <= i < |name| ==> s[i] == name[i];
    }
    assert forall i :: 0 <= i < |s| ==> VoiceSlug(s)[i] == s[i];
  }

  datatype VoiceDataset = VoiceDataset(audioPutPrefix: string, transcriptPutUrl: string)

  /** The response of `/voices/register`. */
  datatype VoiceRegistration = VoiceRegistration(
    voiceId: string,
    uploadMode: string,
    refPurpose: string,
    refPutUrl: string,
    dataset: Option<VoiceDataset>,
    statusSse: string)

  /** The registration plan: a zero-shot reference upload always, and a clip and
      transcript dataset exactly when the mode is `few_shot`; every URL is under the
      derived voice identifier. */
  function VoiceRegister(cfg: Config, name: string, mode: string): (r: VoiceRegistration)
    ensures r.voiceId == VoiceId(name)
    ensures r.dataset.Some? <==> mode == "few_shot"
    ensures var voices := UploadsBase + "/voices/" + r.voiceId;
      && Text.HasPrefix(r.refPutUrl, voices)
      && (r.dataset.Some? ==>
            Text.HasPrefix(r.dataset.value.audioPutPrefix, voices)
            && Text.HasPrefix(r.dataset.value.transcriptPutUrl, voices))
      && Text.HasPrefix(r.statusSse, cfg.apiBase + "/v1/voices/" + r.voiceId)
  {
    var voiceId := VoiceId(name);
    var voices := UploadsBase + "/voices/" + voiceId;
    VoiceRegistration(
      voiceId,
      "presigned",
      "zero_shot_ref",
      voices + "/ref.wav?signature=fake",
      if mode == "few_shot"
      then Some(VoiceDataset(voices + "/clips/{i}.wav", voices + "/transcripts.jsonl"))
      else None,
      cfg.apiBase + "/v1/voices/" + voiceId + "/events")
  }
}
