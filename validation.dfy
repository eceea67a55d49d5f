/** The input checks the configuration form applies before a run. */
module Validation {
  import opened Text

  /** `validate_api_key`: a key is plausible when, stripped, it is longer than ten
      characters. */
  function ValidateApiKey(apiKey: string): (ok: bool)
    ensures ok <==> |Strip(apiKey)| > 10
  {
    apiKey != "" && Strip(apiKey) != "" && |Strip(apiKey)| > 10
  }

  /** `validate_segment_id`: the stripped id is not empty. */
  function ValidateSegmentId(segmentId: string): (ok: bool)
    ensures ok <==> exists i :: 0 <= i < |segmentId| && !IsSpace(segmentId[i])
  {
    StripEmptyIffBlank(segmentId);
    segmentId != "" && Strip(segmentId) != ""
  }

  /** `validate_event_name`: the stripped name is not empty. */
  function ValidateEventName(eventName: string): (ok: bool)
    ensures ok <==> exists i :: 0 <= i < |eventName| && !IsSpace(eventName[i])
  {
    StripEmptyIffBlank(eventName);
    eventName != "" && Strip(eventName) != ""
  }

  /** Empty and whitespace-only inputs are rejected by all three checks. */
  lemma BlankRejected(s: string)
    requires forall i :: 0 <= i < |s| ==> IsSpace(s[i])
    ensures !ValidateApiKey(s) && !ValidateSegmentId(s) && !ValidateEventName(s)
  {
    StripEmptyIffBlank(s);
  }

  /** A valid API key is also a valid segment id or event name. */
  lemma ApiKeyImpliesNonBlank(s: string)
    requires ValidateApiKey(s)
    ensures ValidateSegmentId(s) && ValidateEventName(s)
  {
    StripEmptyIffBlank(s);
  }
}
