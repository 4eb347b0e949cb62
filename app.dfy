/**
 * The request handlers of src/app.ts with HTTP and axios abstracted: registering a webhook,
 * and the test trigger that posts a payload to every registered webhook in turn.
 * The network is the oracle `send`, which answers the n-th request of a trigger with a response
 * or a thrown error.
 */
module App {
  import opened Wrappers
  import opened Errors
  import opened Webhooks
  import opened Payloads

  /** The text answered when every webhook responded with status 200 (spelling as in the source). */
  const SuccessText := "Sucessfully sent POST request to all webhooks"

  /** The JSON body posted to a webhook. */
  datatype RequestBody = RequestBody(token: string, payload: Value)

  /** A POST request: its target url and body. */
  datatype Request = Request(url: string, body: RequestBody)

  /** What the network gives back for one request: a response, or an error thrown while awaiting it. */
  datatype Outcome = Response(status: int, statusText: string) | Thrown(error: Error)

  /**
   * The network as seen by one trigger: the outcome of its n-th request (counting from 0).
   * The position is an argument, so two equal requests, as a webhook registered twice
   * produces, may get different outcomes.
   */
  type Network = (nat, Request) -> Outcome

  /** The network seen from the k-th request on: its n-th request is the k + n-th of `send`. */
  function Shifted(send: Network, k: nat): (shifted: Network)
    ensures forall n: nat, r: Request {:trigger shifted(n, r)} :: shifted(n, r) == send(k + n, r)
  {
    (n: nat, r: Request) => send(k + n, r)
  }

  /** What a handler answers. */
  datatype Reply =
    | WebhookJson(webhook: Webhook)                  // res.json({ webhook })
    | Text(text: string)                             // res.send(text)
    | ErrorsJson(status: int, errors: seq<string>)   // res.status(status).json({ errors })
  {
    /** The HTTP status: 200 unless one is set explicitly. */
    function Status(): (code: int) {
      if ErrorsJson? then status else CodeOk
    }
  }

  /** `makeWebkookRequest`: the request posted to a webhook for a payload. */
  function WebhookRequest(webhook: Webhook, payload: Value): (r: Request)
    ensures r.url == webhook.url
    ensures r.body.token == webhook.token && r.body.payload == payload
  {
    Request(webhook.url, RequestBody(webhook.token, payload))
  }

  /** `handleError`: status 500 with the error's message as the only entry. */
  function HandleError(error: Error): (r: Reply)
    ensures r.Status() == CodeInternalError && r.ErrorsJson? && r.errors == [error.message]
  {
    ErrorsJson(CodeInternalError, [error.message])
  }

  const ErrorLinePrefix := "Error making POST request to "

  /** The entry recorded for a webhook that answered with a status other than 200. */
  function ErrorLine(webhook: Webhook, statusText: string): (line: string)
    ensures ErrorLinePrefix + webhook.url + ": " <= line
    ensures |line| >= |statusText| && line[|line| - |statusText|..] == statusText
  {
    ErrorLinePrefix + webhook.url + ": " + statusText
  }

  /** A response the trigger loop does not record as an error. */
  predicate Accepted(o: Outcome) {
    o.Response? && o.status == CodeOk
  }

  /** The state of the trigger loop: requests issued, errors recorded, and the error that aborted it. */
  datatype Delivery = Delivery(sent: seq<Request>, errors: seq<string>, thrown: Option<Error>)

  /**
   * One iteration of the trigger loop: post to the webhook as the next request, record an error
   * line for a status other than 200, and stop at a thrown error; once stopped, nothing happens.
   */
  function Step(d: Delivery, webhook: Webhook, payload: Value, send: Network): (next: Delivery)
    ensures d.thrown.Some? ==> next == d
    ensures d.thrown.None? ==> next.sent == d.sent + [WebhookRequest(webhook, payload)]
    ensures d.thrown.None? ==>
      var o := send(|d.sent|, WebhookRequest(webhook, payload));
      next.thrown == (if o.Thrown? then Some(o.error) else None) &&
      next.errors == d.errors + (if o.Response? && o.status != CodeOk then [ErrorLine(webhook, o.statusText)] else [])
  {
    if d.thrown.Some? then d
    else
      var request := WebhookRequest(webhook, payload);
      match send(|d.sent|, request)
      case Thrown(e) => Delivery(d.sent + [request], d.errors, Some(e))
      case Response(status, statusText) =>
        Delivery(d.sent + [request],
                 if status != CodeOk then d.errors + [ErrorLine(webhook, statusText)] else d.errors,
                 None)
  }

  /** The trigger loop run over `webhooks` in order: the specification of `Server.Trigger`. */
  function Deliver(webhooks: seq<Webhook>, payload: Value, send: Network): (d: Delivery)
    ensures |d.sent| <= |webhooks|
    ensures d.thrown.None? ==> |d.sent| == |webhooks|
    decreases |webhooks|
  {
    if webhooks == [] then Delivery([], [], None)
    else Step(Deliver(webhooks[..|webhooks| - 1], payload, send), webhooks[|webhooks| - 1], payload, send)
  }

  /**
   * The trigger handler's reply and the requests it issues, for the registered webhooks and a
   * request body's payload: 500 for a missing payload or a thrown error, otherwise the success
   * text or 404 with the errors.
   */
  function Triggered(webhooks: seq<Webhook>, body: Value, send: Network): (result: (Reply, seq<Request>))
    ensures NewPayload(body).Err? ==> result.1 == []
    ensures |result.1| <= |webhooks|
    ensures result.0.Status() in {CodeOk, CodeNotFound, CodeInternalError}
    ensures result.0.Status() == CodeOk ==> result.0 == Text(SuccessText)
  {
    match NewPayload(body)
    case Err(e) => (HandleError(e), [])
    case Ok(p) =>
      var d := Deliver(webhooks, p.payload, send);
      var reply :=
        if d.thrown.Some? then HandleError(d.thrown.value)
        else if d.errors == [] then Text(SuccessText)
        else ErrorsJson(CodeNotFound, d.errors);
      (reply, d.sent)
  }

  /** Once the loop has been aborted, the remaining webhooks change nothing. */
  lemma {:induction false} DeliverStopsAtThrow(webhooks: seq<Webhook>, k: nat, payload: Value, send: Network)
    requires k <= |webhooks|
    requires Deliver(webhooks[..k], payload, send).thrown.Some?
    ensures Deliver(webhooks, payload, send) == Deliver(webhooks[..k], payload, send)
  {
    if k < |webhooks| {
      var init := webhooks[..|webhooks| - 1];
      assert init[..k] == webhooks[..k];
      DeliverStopsAtThrow(init, k, payload, send);
    } else {
      assert webhooks[..k] == webhooks;
    }
  }

  /** The i-th request issued goes to the i-th webhook, with its token and the payload. */
  lemma {:induction false} DeliverRequestsInOrder(webhooks: seq<Webhook>, payload: Value, send: Network)
    ensures forall i :: 0 <= i < |Deliver(webhooks, payload, send).sent| ==>
      Deliver(webhooks, payload, send).sent[i] == WebhookRequest(webhooks[i], payload)
  {
    if webhooks != [] {
      var init := webhooks[..|webhooks| - 1];
      DeliverRequestsInOrder(init, payload, send);
    }
  }

  /** The loop is aborted exactly when the request of some webhook throws. */
  lemma {:induction false} DeliverThrowsIffSomeRequestThrows(webhooks: seq<Webhook>, payload: Value, send: Network)
    ensures Deliver(webhooks, payload, send).thrown.Some? <==>
      exists i :: 0 <= i < |webhooks| && send(i, WebhookRequest(webhooks[i], payload)).Thrown?
  {
    if webhooks != [] {
      var n := |webhooks| - 1;
      var init := webhooks[..n];
      DeliverThrowsIffSomeRequestThrows(init, payload, send);
      var d0 := Deliver(init, payload, send);
      assert Deliver(webhooks, payload, send) == Step(d0, webhooks[n], payload, send);
      if d0.thrown.Some? {
        var i :| 0 <= i < n && send(i, WebhookRequest(init[i], payload)).Thrown?;
        assert webhooks[i] == init[i];
      } else {
        forall i | 0 <= i < n ensures !send(i, WebhookRequest(webhooks[i], payload)).Thrown? {
          assert webhooks[i] == init[i];
        }
      }
    }
  }

  /**
   * An aborted loop stopped at the first request that threw: the last request issued is the one
   * that threw that error, and none before it threw.
   */
  lemma {:induction false} DeliverAbortsAtFirstThrow(webhooks: seq<Webhook>, payload: Value, send: Network)
    ensures var d := Deliver(webhooks, payload, send);
      d.thrown.Some? ==>
        |d.sent| > 0 && send(|d.sent| - 1, d.sent[|d.sent| - 1]) == Thrown(d.thrown.value) &&
        forall i :: 0 <= i < |d.sent| - 1 ==> !send(i, d.sent[i]).Thrown?
  {
    if webhooks != [] {
      var n := |webhooks| - 1;
      var init := webhooks[..n];
      DeliverAbortsAtFirstThrow(init, payload, send);
      var d0 := Deliver(init, payload, send);
      assert Deliver(webhooks, payload, send) == Step(d0, webhooks[n], payload, send);
      if d0.thrown.None? {
        DeliverThrowsIffSomeRequestThrows(init, payload, send);
        DeliverRequestsInOrder(init, payload, send);
        forall i | 0 <= i < |d0.sent| ensures !send(i, d0.sent[i]).Thrown? {
          assert d0.sent[i] == WebhookRequest(init[i], payload);
        }
      }
    }
  }

  /**
   * When no request throws, no error is recorded exactly when every webhook answered 200.
   */
  lemma {:induction false} DeliverErrorsEmptyIffAllAccepted(webhooks: seq<Webhook>, payload: Value, send: Network)
    requires Deliver(webhooks, payload, send).thrown.None?
    ensures Deliver(webhooks, payload, send).errors == [] <==>
      forall i :: 0 <= i < |webhooks| ==> Accepted(send(i, WebhookRequest(webhooks[i], payload)))
  {
    if webhooks != [] {
      var n := |webhooks| - 1;
      var init := webhooks[..n];
      DeliverErrorsEmptyIffAllAccepted(init, payload, send);
      forall i | 0 <= i < n ensures webhooks[i] == init[i] { }
    }
  }

  /**
   * One step after a run that was not aborted extends its requests and errors by that step's,
   * taken with the network shifted past the requests already issued.
   */
  lemma StepAfter(f: Delivery, b: Delivery, webhook: Webhook, payload: Value, send: Network)
    requires f.thrown.None?
    ensures var s := Step(b, webhook, payload, Shifted(send, |f.sent|));
      Step(Delivery(f.sent + b.sent, f.errors + b.errors, b.thrown), webhook, payload, send) ==
      Delivery(f.sent + s.sent, f.errors + s.errors, s.thrown)
  {
    if b.thrown.None? {
      var request := WebhookRequest(webhook, payload);
      assert Shifted(send, |f.sent|)(|b.sent|, request) == send(|f.sent + b.sent|, request);
      assert f.sent + b.sent + [request] == f.sent + (b.sent + [request]);
    }
  }

  /**
   * Looping over `front + back` is looping over `front`, then, unless that was aborted,
   * over `back` with the network shifted past front's requests, and the requests and errors
   * appended: errors are recorded in webhook order.
   */
  lemma {:induction false} DeliverAppend(front: seq<Webhook>, back: seq<Webhook>, payload: Value, send: Network)
    requires Deliver(front, payload, send).thrown.None?
    ensures var f, b := Deliver(front, payload, send), Deliver(back, payload, Shifted(send, |front|));
      Deliver(front + back, payload, send) == Delivery(f.sent + b.sent, f.errors + b.errors, b.thrown)
  {
    var f := Deliver(front, payload, send);
    if back == [] {
      assert front + back == front;
      assert f.sent + [] == f.sent && f.errors + [] == f.errors;
    } else {
      var n := |back| - 1;
      var all := front + back;
      assert all[..|all| - 1] == front + back[..n];
      assert all[|all| - 1] == back[n];
      DeliverAppend(front, back[..n], payload, send);
      StepAfter(f, Deliver(back[..n], payload, Shifted(send, |front|)), back[n], payload, send);
    }
  }

  /** A single webhook gets one request, and one error exactly when it does not answer 200. */
  lemma DeliverOne(webhook: Webhook, payload: Value, send: Network)
    ensures var d, o := Deliver([webhook], payload, send), send(0, WebhookRequest(webhook, payload));
      d.sent == [WebhookRequest(webhook, payload)] &&
      d.errors == (if o.Response? && o.status != CodeOk then [ErrorLine(webhook, o.statusText)] else []) &&
      d.thrown == (if o.Thrown? then Some(o.error) else None)
  {
  }

  /** A network whose first request is answered 200 and whose later requests throw `e`. */
  function FirstOkThenThrows(e: Error): (send: Network)
    ensures forall r: Request {:trigger send(0, r)} :: send(0, r) == Response(CodeOk, "OK")
    ensures forall n: nat, r: Request {:trigger send(n, r)} :: n > 0 ==> send(n, r) == Thrown(e)
  {
    (n: nat, r: Request) => if n == 0 then Response(CodeOk, "OK") else Thrown(e)
  }

  /**
   * A webhook registered twice gets two requests, and the network may answer them differently:
   * here the first copy answers 200 and the second throws, which aborts the loop at the second copy.
   */
  lemma DuplicateWebhookAnsweredPerRequest(webhook: Webhook, payload: Value, e: Error)
    ensures Deliver([webhook, webhook], payload, FirstOkThenThrows(e)) ==
      Delivery([WebhookRequest(webhook, payload), WebhookRequest(webhook, payload)], [], Some(e))
  {
    var send := FirstOkThenThrows(e);
    var request := WebhookRequest(webhook, payload);
    var one, two := [webhook], [webhook, webhook];
    assert two[..|two| - 1] == one && two[|two| - 1] == webhook;
    assert one[..|one| - 1] == [] && one[|one| - 1] == webhook;
    assert Deliver([], payload, send) == Delivery([], [], None);
    var first := Deliver(one, payload, send);
    assert first == Step(Deliver(one[..|one| - 1], payload, send), webhook, payload, send);
    assert first == Step(Delivery([], [], None), webhook, payload, send);
    assert first == Delivery([request], [], None);
    assert Deliver(two, payload, send) == Step(first, webhook, payload, send);
  }

  /** A missing payload is answered with 500 and "Payload is required", and no request is issued. */
  lemma TriggerRejectsMissingPayload(webhooks: seq<Webhook>, body: Value, send: Network)
    requires body == Undefined || body == Null
    ensures Triggered(webhooks, body, send) == (ErrorsJson(CodeInternalError, [PayloadRequiredMessage]), [])
  {
  }

  /** With no webhook registered, a valid payload is answered with the success text and nothing is sent. */
  lemma TriggerWithoutWebhooks(body: Value, send: Network)
    requires body != Undefined && body != Null
    ensures Triggered([], body, send) == (Text(SuccessText), [])
  {
  }

  /**
   * With a valid payload and no request throwing: one request per webhook, in order, and the reply
   * is the success text exactly when every webhook answered 200, otherwise 404 with the errors.
   */
  lemma TriggerDecision(webhooks: seq<Webhook>, body: Value, send: Network)
    requires body != Undefined && body != Null
    requires forall i :: 0 <= i < |webhooks| ==> !send(i, WebhookRequest(webhooks[i], body)).Thrown?
    ensures var (reply, sent) := Triggered(webhooks, body, send);
      |sent| == |webhooks| &&
      (forall i :: 0 <= i < |webhooks| ==> sent[i] == WebhookRequest(webhooks[i], body)) &&
      (reply == Text(SuccessText) <==> forall i :: 0 <= i < |webhooks| ==> Accepted(send(i, sent[i]))) &&
      (reply != Text(SuccessText) ==> reply.ErrorsJson? && reply.Status() == CodeNotFound && reply.errors != [])
  {
    DeliverThrowsIffSomeRequestThrows(webhooks, body, send);
    DeliverRequestsInOrder(webhooks, body, send);
    DeliverErrorsEmptyIffAllAccepted(webhooks, body, send);
  }

  /**
   * With a valid payload, if the request of webhook k is the first to throw, the webhooks after k
   * get no request and the reply is 500 with that error's message.
   */
  lemma TriggerAbortsOnThrow(webhooks: seq<Webhook>, body: Value, send: Network, k: nat)
    requires body != Undefined && body != Null
    requires k < |webhooks| && send(k, WebhookRequest(webhooks[k], body)).Thrown?
    requires forall i :: 0 <= i < k ==> !send(i, WebhookRequest(webhooks[i], body)).Thrown?
    ensures var (reply, sent) := Triggered(webhooks, body, send);
      |sent| == k + 1 &&
      (forall i :: 0 <= i <= k ==> sent[i] == WebhookRequest(webhooks[i], body)) &&
      reply == HandleError(send(k, WebhookRequest(webhooks[k], body)).error)
  {
    DeliverThrowsIffSomeRequestThrows(webhooks, body, send);
    DeliverAbortsAtFirstThrow(webhooks, body, send);
    DeliverRequestsInOrder(webhooks, body, send);
  }

  /** The running server: its state is the module-level list of registered webhooks. */
  class Server {
    var webhooks: seq<Webhook>

    constructor ()
      ensures webhooks == []
    {
      webhooks := [];
    }

    /**
     * POST /api/webhooks: construct the webhook from the body's url and token and only then
     * append it; a validation error leaves the list unchanged and is answered with 500.
     */
    method Register(url: Option<string>, token: Option<string>, isAbsoluteUrl: string -> bool) returns (reply: Reply)
      modifies this
      ensures var r := NewWebhook(url, token, isAbsoluteUrl);
        match r
        case Ok(w) => webhooks == old(webhooks) + [w] && reply == WebhookJson(w) && reply.Status() == CodeOk
        case Err(e) => webhooks == old(webhooks) && reply == HandleError(e) && reply.errors == [e.message]
    {
      match NewWebhook(url, token, isAbsoluteUrl)
      case Err(e) =>
        reply := HandleError(e);
      case Ok(w) =>
        webhooks := webhooks + [w];
        reply := WebhookJson(w);
    }

    /**
     * POST /api/webhooks/test: validate the payload, then post it to each registered webhook in
     * turn, awaiting each answer; returns the reply and the requests issued, in order.
     */
    method Trigger(body: Value, send: Network) returns (reply: Reply, sent: seq<Request>)
      ensures (reply, sent) == Triggered(webhooks, body, send)
    {
      var checked := NewPayload(body);
      if checked.Err? {
        return HandleError(checked.error), [];
      }
      var payload := checked.value.payload;
      var errors: seq<string> := [];
      sent := [];
      var i := 0;
      while i < |webhooks|
        invariant i <= |webhooks|
        invariant Deliver(webhooks[..i], payload, send) == Delivery(sent, errors, None)
      {
        var webhook := webhooks[i];
        var request := WebhookRequest(webhook, payload);
        sent := sent + [request];
        assert webhooks[..i + 1][..i] == webhooks[..i];
        var response := send(i, request);
        match response
        case Thrown(e) =>
          DeliverStopsAtThrow(webhooks, i + 1, payload, send);
          return HandleError(e), sent;
        case Response(status, statusText) =>
          if status != CodeOk {
            errors := errors + [ErrorLine(webhook, statusText)];
          }
        i := i + 1;
      }
      assert webhooks[..i] == webhooks;
      reply := if errors == [] then Text(SuccessText) else ErrorsJson(CodeNotFound, errors);
    }
  }
}
