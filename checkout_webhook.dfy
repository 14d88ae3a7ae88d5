/**
 * The webhook handler of api/checkout.js: method gate, raw-body capture,
 * signature check over the raw bytes, parse after verification, acknowledge,
 * then forward the mapped checkout.
 */
module CheckoutWebhook {
  import opened Wrappers
  import opened Payloads
  import opened RawBody
  import opened Signatures
  import opened CheckoutMapping

  /** An inbound webhook request: its method, its body as the chunks that arrive, its signature header. */
  datatype WebhookRequest = WebhookRequest(verb: string, chunks: seq<Bytes>, signature: Option<string>)

  /**
   * The handler. `parse` is `JSON.parse` of the UTF-8 text (None when it throws).
   * Whatever `createDraftOrderFromCheckout` comes back with is caught and logged,
   * so the downstream outcome does not change the run.
   */
  function Handle(crypto: Crypto, parse: Bytes -> Option<Checkout>, secret: Option<string>,
                  req: WebhookRequest): Run {
    if req.verb != "POST" then Run([Respond(MethodNotAllowed)], false)
    else
      var raw := Concat(req.chunks);
      match VerifyRaw(crypto, secret, raw, req.signature)
      case Threw => Run([ReadBody], true)
      case Mismatch => Run([ReadBody, Respond(InvalidSignature)], false)
      case Match =>
        match parse(raw)
        case None => Run([ReadBody, ParseBody], true)
        case Some(checkout) =>
          Run([ReadBody, ParseBody, Respond(Acknowledged), PostDraftOrder(DraftOrderFromCheckout(checkout))], false)
  }

  /** Any method but POST is answered 405 before the body is read, and nothing is forwarded. */
  lemma RejectsOtherMethods(crypto: Crypto, parse: Bytes -> Option<Checkout>, secret: Option<string>,
                            req: WebhookRequest)
    requires req.verb != "POST"
    ensures var run := Handle(crypto, parse, secret, req);
      && Responses(run.effects) == [MethodNotAllowed]
      && ReadBody !in run.effects
      && NoDownstreamCall(run.effects)
      && !run.escaped
  {
    FiltersByPosition(Handle(crypto, parse, secret, req).effects);
  }

  /**
   * A draft order is requested exactly when the request is a POST whose raw
   * bytes verify and parse, and then once, with the mapped checkout.
   */
  lemma ForwardsOnlyVerified(crypto: Crypto, parse: Bytes -> Option<Checkout>, secret: Option<string>,
                             req: WebhookRequest)
    ensures var raw := Concat(req.chunks);
      Posted(Handle(crypto, parse, secret, req).effects) ==
        if req.verb == "POST" && VerifyRaw(crypto, secret, raw, req.signature) == Match && parse(raw).Some?
        then [DraftOrderFromCheckout(parse(raw).value)]
        else []
  {
    FiltersByPosition(Handle(crypto, parse, secret, req).effects);
  }

  /** 401 is sent exactly on a mismatching signature, and then the body is never parsed and nothing is forwarded. */
  lemma UnauthorizedOnMismatch(crypto: Crypto, parse: Bytes -> Option<Checkout>, secret: Option<string>,
                               req: WebhookRequest)
    ensures var run := Handle(crypto, parse, secret, req);
      (Responses(run.effects) == [InvalidSignature] <==>
         req.verb == "POST" && VerifyRaw(crypto, secret, Concat(req.chunks), req.signature) == Mismatch)
    ensures var run := Handle(crypto, parse, secret, req);
      Responses(run.effects) == [InvalidSignature] ==> ParseBody !in run.effects && NoDownstreamCall(run.effects)
  {
    var run := Handle(crypto, parse, secret, req);
    FiltersByPosition(run.effects);
    if Responses(run.effects) == [InvalidSignature] {
      assert Responses(run.effects)[0].status == 401;
    }
  }

  /** With no secret configured the check still runs and throws: nothing is acknowledged or forwarded. */
  lemma NoBypassWithoutSecret(crypto: Crypto, parse: Bytes -> Option<Checkout>, req: WebhookRequest)
    requires req.verb == "POST"
    ensures var run := Handle(crypto, parse, None, req);
      Responses(run.effects) == [] && NoDownstreamCall(run.effects) && run.escaped
  {
    FiltersByPosition(Handle(crypto, parse, None, req).effects);
  }

  /** At most one response, and exactly one unless an exception escaped. */
  lemma OneResponseUnlessEscaped(crypto: Crypto, parse: Bytes -> Option<Checkout>, secret: Option<string>,
                                 req: WebhookRequest)
    ensures var run := Handle(crypto, parse, secret, req);
      |Responses(run.effects)| <= 1 && (|Responses(run.effects)| == 1 <==> !run.escaped)
  {
    var run := Handle(crypto, parse, secret, req);
    FiltersByPosition(run.effects);
  }

  /**
   * The body is parsed only on a POST whose signature matched, after it was
   * read; and the acknowledgment precedes the forward.
   */
  lemma AcknowledgeThenForward(crypto: Crypto, parse: Bytes -> Option<Checkout>, secret: Option<string>,
                               req: WebhookRequest)
    ensures var run := Handle(crypto, parse, secret, req);
      && AckBeforeDownstream(run.effects)
      && forall j :: 0 <= j < |run.effects| && run.effects[j] == ParseBody ==>
           && req.verb == "POST"
           && VerifyRaw(crypto, secret, Concat(req.chunks), req.signature) == Match
           && exists i :: 0 <= i < j && run.effects[i] == ReadBody
  {
    var run := Handle(crypto, parse, secret, req);
    forall j | 0 <= j < |run.effects| && run.effects[j] == ParseBody
      ensures req.verb == "POST" && VerifyRaw(crypto, secret, Concat(req.chunks), req.signature) == Match
      ensures exists i :: 0 <= i < j && run.effects[i] == ReadBody
    {
      assert run.effects[0] == ReadBody;
    }
    if req.verb == "POST" {
      var raw := Concat(req.chunks);
      if VerifyRaw(crypto, secret, raw, req.signature) == Match && parse(raw).Some? {
        var payload := DraftOrderFromCheckout(parse(raw).value);
        assert run.effects == [ReadBody, ParseBody, Respond(Acknowledged), PostDraftOrder(payload)];
        forall j | 0 <= j < |run.effects| && IsDownstreamCall(run.effects[j])
          ensures exists i :: 0 <= i < j && run.effects[i] == Respond(Acknowledged)
        {
          assert j == 3 && run.effects[2] == Respond(Acknowledged);
        }
      } else {
        assert NoDownstreamCall(run.effects);
      }
    }
  }

  /**
   * A delivery signed over its exact bytes is acknowledged and forwarded,
   * whatever the parsed checkout would re-serialise to.
   */
  lemma AcceptsGenuineDelivery(crypto: Crypto, parse: Bytes -> Option<Checkout>, key: string,
                               req: WebhookRequest, checkout: Checkout)
    requires req.verb == "POST"
    requires req.signature == Some(crypto.hmacBase64(key, Concat(req.chunks)))
    requires parse(Concat(req.chunks)) == Some(checkout)
    ensures var run := Handle(crypto, parse, Some(key), req);
      Responses(run.effects) == [Acknowledged] && Posted(run.effects) == [DraftOrderFromCheckout(checkout)]
  {
    FiltersByPosition(Handle(crypto, parse, Some(key), req).effects);
  }
}
