/** `generateAdTags`: the AI tagging collaborator. The generative-content
    request is abstracted as a `Service` oracle from the ad's title and body
    to the call's outcome, and the environment's API key as an optional
    string. */
module GeminiService {
  import opened Types
  import opened Strings

  /** How the generative-content call ended: it threw (client construction,
      network or service error), or it answered with a possibly absent
      `response.text`. */
  datatype CallOutcome = CallFailed | Responded(text: Option<string>)

  /** The generative-content endpoint, applied to `(title, body)`. */
  type Service = (string, string) -> CallOutcome

  /** Returned without calling the service when no key is configured. */
  const NoKeyTags: seq<string> := ["Mock Tag", "AI Analysis", "Creative"]

  /** Returned when the call fails. */
  const CallErrorTags: seq<string> := ["API Error", "Tagging Failed"]

  /** `!process.env.API_KEY` is true for an unset variable and for `""`. */
  predicate HasKey(apiKey: Option<string>) {
    apiKey.Some? && apiKey.value != ""
  }

  /** `text.split(',').map(tag => tag.trim())`: one trimmed tag per
      comma-separated piece of the text. */
  function ParseTags(text: string): (tags: seq<string>)
    ensures |tags| == Occurrences(text, ',') + 1
    ensures forall k :: 0 <= k < |tags| ==> IsTrimmed(tags[k]) && ',' !in tags[k]
    ensures exists pieces: seq<string> ::
              && |pieces| == |tags|
              && Join(pieces, ',') == text
              && (forall k :: 0 <= k < |pieces| ==> ',' !in pieces[k])
              && (forall k :: 0 <= k < |pieces| ==> tags[k] == Trim(pieces[k]))
  {
    var pieces := Split(text, ',');
    JoinSplit(text, ',');
    var tags := seq(|pieces|, k requires 0 <= k < |pieces| => Trim(pieces[k]));
    forall k | 0 <= k < |tags| ensures ',' !in tags[k] {
      TrimAddsNothing(pieces[k], ',');
    }
    tags
  }

  /** `generateAdTags(adBody, adTitle)`. Every branch returns a list: no
      error reaches the caller. */
  function GenerateAdTags(adBody: string, adTitle: string, apiKey: Option<string>, service: Service)
    : (tags: seq<string>)
  {
    if !HasKey(apiKey) then NoKeyTags
    else
      match service(adTitle, adBody)
      case CallFailed => CallErrorTags
      case Responded(text) =>
        if text.Some? && text.value != "" then ParseTags(text.value) else []
  }

  /** Without a key the result is the three mock tags, whatever the service
      would have answered: the service is not consulted. */
  lemma NoKeyMakesNoCall(adBody: string, adTitle: string, apiKey: Option<string>, s1: Service, s2: Service)
    requires !HasKey(apiKey)
    ensures GenerateAdTags(adBody, adTitle, apiKey, s1) == NoKeyTags
    ensures GenerateAdTags(adBody, adTitle, apiKey, s1) == GenerateAdTags(adBody, adTitle, apiKey, s2)
  {
  }

  /** A failed call gives the two error tags, whatever the ad. */
  lemma FailedCallFallback(adBody: string, adTitle: string, apiKey: Option<string>, service: Service)
    requires HasKey(apiKey) && service(adTitle, adBody) == CallFailed
    ensures GenerateAdTags(adBody, adTitle, apiKey, service) == ["API Error", "Tagging Failed"]
  {
  }

  /** The missing-key and the failed-call fallbacks are different lists. */
  lemma FallbacksDistinct()
    ensures NoKeyTags != CallErrorTags
    ensures |NoKeyTags| == 3 && |CallErrorTags| == 2
  {
  }

  /** The result is empty exactly when a key is set, the call succeeds and
      its text is absent or empty. */
  lemma EmptyResultIff(adBody: string, adTitle: string, apiKey: Option<string>, service: Service)
    ensures GenerateAdTags(adBody, adTitle, apiKey, service) == []
        <==> (&& HasKey(apiKey)
              && service(adTitle, adBody).Responded?
              && (service(adTitle, adBody).text.None? || service(adTitle, adBody).text.value == ""))
  {
  }

  /** A non-empty answer gives one tag more than it has commas, the i-th tag
      being the trim of the i-th comma-separated piece. */
  lemma ResponseTags(adBody: string, adTitle: string, apiKey: Option<string>, service: Service, text: string)
    requires HasKey(apiKey) && service(adTitle, adBody) == Responded(Some(text)) && text != ""
    ensures var tags := GenerateAdTags(adBody, adTitle, apiKey, service);
            && |tags| == Occurrences(text, ',') + 1
            && forall k :: 0 <= k < |tags| ==> tags[k] == Trim(Split(text, ',')[k])
  {
    var tags := GenerateAdTags(adBody, adTitle, apiKey, service);
    var pieces :| && |pieces| == |tags|
                  && Join(pieces, ',') == text
                  && (forall k :: 0 <= k < |pieces| ==> ',' !in pieces[k])
                  && (forall k :: 0 <= k < |pieces| ==> tags[k] == Trim(pieces[k]));
    SplitJoin(pieces, ',');
  }

  /** Whatever the branch, no returned tag starts or ends with whitespace. */
  lemma AllTagsTrimmed(adBody: string, adTitle: string, apiKey: Option<string>, service: Service)
    ensures forall k :: 0 <= k < |GenerateAdTags(adBody, adTitle, apiKey, service)| ==>
              IsTrimmed(GenerateAdTags(adBody, adTitle, apiKey, service)[k])
  {
  }
}
