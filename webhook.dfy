/**
 * The Webhook model of src/models/webhook.ts: a (url, token) pair that can only be
 * built through a fixed chain of validation guards, the first failing one throwing.
 * Parsing a URL (`new URL`) is the parameter `isAbsoluteUrl`, left uninterpreted.
 */
module Webhooks {
  import opened Wrappers
  import opened Errors

  datatype Webhook = Webhook(url: string, token: string)

  /** A webhook as the constructor leaves it: both fields non-empty, the url parsed. */
  predicate WellFormed(w: Webhook, isAbsoluteUrl: string -> bool) {
    w.url != "" && w.token != "" && isAbsoluteUrl(w.url)
  }

  /** `validateUrl`: passes exactly for a present, non-empty url that parses. */
  function ValidateUrl(url: Option<string>, isAbsoluteUrl: string -> bool): (r: Option<Error>)
    ensures r.None? <==> url.Some? && url.value != "" && isAbsoluteUrl(url.value)
    ensures r.Some? ==> IsValidationError(r.value)
  {
    if url.None? then Some(ValidationError(UrlRequiredMessage))
    else if |url.value| == 0 then Some(ValidationError(UrlEmptyMessage))
    else if !isAbsoluteUrl(url.value) then Some(ValidationError(UrlInvalidMessage))
    else None
  }

  /** `validateToken`: passes exactly for a present, non-empty token. */
  function ValidateToken(token: Option<string>): (r: Option<Error>)
    ensures r.None? <==> token.Some? && token.value != ""
    ensures r.Some? ==> IsValidationError(r.value)
  {
    if token.None? then Some(ValidationError(TokenRequiredMessage))
    else if |token.value| == 0 then Some(ValidationError(TokenEmptyMessage))
    else None
  }

  /** The Webhook constructor: validate the url, then the token; `None` is undefined or null. */
  function NewWebhook(url: Option<string>, token: Option<string>, isAbsoluteUrl: string -> bool): (r: Result<Webhook, Error>)
    // a missing url is reported whatever the token is
    ensures url.None? ==> r == Err(ValidationError(UrlRequiredMessage))
    // the length check comes before parsing, whatever the parser says of ""
    ensures url == Some("") ==> r == Err(ValidationError(UrlEmptyMessage))
    ensures url.Some? && url.value != "" && !isAbsoluteUrl(url.value) ==> r == Err(ValidationError(UrlInvalidMessage))
    // the token is looked at only once the url passed every check
    ensures ValidateUrl(url, isAbsoluteUrl).Some? ==> r == Err(ValidateUrl(url, isAbsoluteUrl).value)
    ensures ValidateUrl(url, isAbsoluteUrl).None? && token.None? ==> r == Err(ValidationError(TokenRequiredMessage))
    ensures ValidateUrl(url, isAbsoluteUrl).None? && token == Some("") ==> r == Err(ValidationError(TokenEmptyMessage))
    // a constructed webhook stores its inputs unchanged, and they are valid
    ensures r.Ok? ==> url == Some(r.value.url) && token == Some(r.value.token) && WellFormed(r.value, isAbsoluteUrl)
    ensures r.Err? ==> IsValidationError(r.error)
  {
    match ValidateUrl(url, isAbsoluteUrl)
    case Some(e) => Err(e)
    case None =>
      match ValidateToken(token)
      case Some(e) => Err(e)
      case None => Ok(Webhook(url.value, token.value))
  }

  /** A webhook is constructible from its own fields exactly when it is well formed. */
  lemma NewWebhookRoundTrip(w: Webhook, isAbsoluteUrl: string -> bool)
    ensures NewWebhook(Some(w.url), Some(w.token), isAbsoluteUrl) == Ok(w) <==> WellFormed(w, isAbsoluteUrl)
  {
  }

  /** The guards of the constructor, one per error it can throw. */
  datatype Check = UrlPresent | UrlNonEmpty | UrlParses | TokenPresent | TokenNonEmpty {

    /** The message of the error thrown when this check fails. */
    function Message(): (message: string) {
      match this
      case UrlPresent => UrlRequiredMessage
      case UrlNonEmpty => UrlEmptyMessage
      case UrlParses => UrlInvalidMessage
      case TokenPresent => TokenRequiredMessage
      case TokenNonEmpty => TokenEmptyMessage
    }

    /** Whether the inputs pass this check, judged on its own. */
    predicate Passes(url: Option<string>, token: Option<string>, isAbsoluteUrl: string -> bool) {
      match this
      case UrlPresent => url.Some?
      case UrlNonEmpty => url != Some("")
      case UrlParses => url.Some? ==> isAbsoluteUrl(url.value)
      case TokenPresent => token.Some?
      case TokenNonEmpty => token != Some("")
    }
  }

  /** The order in which the constructor runs its checks. */
  const CheckOrder: seq<Check> := [UrlPresent, UrlNonEmpty, UrlParses, TokenPresent, TokenNonEmpty]

  /** Every check has its own message, so a message names the check that failed. */
  lemma CheckMessagesDistinct(i: nat, j: nat)
    requires i < j < |CheckOrder|
    ensures CheckOrder[i].Message() != CheckOrder[j].Message()
  {
  }

  /**
   * Short-circuit order: construction succeeds exactly when every check passes, and otherwise
   * reports exactly one error, that of the first check in `CheckOrder` that fails.
   */
  lemma {:induction false} NewWebhookReportsFirstFailedCheck(url: Option<string>, token: Option<string>, isAbsoluteUrl: string -> bool)
    ensures NewWebhook(url, token, isAbsoluteUrl).Ok? <==>
      forall i :: 0 <= i < |CheckOrder| ==> CheckOrder[i].Passes(url, token, isAbsoluteUrl)
    ensures NewWebhook(url, token, isAbsoluteUrl).Err? ==>
      exists i :: 0 <= i < |CheckOrder| && !CheckOrder[i].Passes(url, token, isAbsoluteUrl) &&
        (forall j :: 0 <= j < i ==> CheckOrder[j].Passes(url, token, isAbsoluteUrl)) &&
        NewWebhook(url, token, isAbsoluteUrl).error == ValidationError(CheckOrder[i].Message())
  {
    var r := NewWebhook(url, token, isAbsoluteUrl);
    var k :=
      if url.None? then 0
      else if url.value == "" then 1
      else if !isAbsoluteUrl(url.value) then 2
      else if token.None? then 3
      else if token.value == "" then 4
      else 5;
    assert forall j :: 0 <= j < k ==> CheckOrder[j].Passes(url, token, isAbsoluteUrl);
    if k < 5 {
      assert !CheckOrder[k].Passes(url, token, isAbsoluteUrl);
      assert r.Err? && r.error == ValidationError(CheckOrder[k].Message());
    }
  }
}
