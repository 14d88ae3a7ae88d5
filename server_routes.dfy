/**
 * The routes of server.js that shape draft orders: the checkout webhook
 * (optional signature check, acknowledge, forward, optional auto-complete),
 * the manual creation route and the add-custom-item route.
 */
module ServerRoutes {
  import opened Wrappers
  import opened JsValues
  import opened Payloads
  import opened Signatures
  import opened CheckoutMapping
  import opened CustomItems
  import ManualDraftOrders

  /** The environment the routes read: `SHOPIFY_WEBHOOK_SECRET` and `AUTO_COMPLETE_DRAFT_ORDER`. */
  datatype ServerConfig = ServerConfig(webhookSecret: Option<string>, autoComplete: Option<string>)

  const AddFailed := Response(500, Json(Message("error", "Failed to add custom item")))

  /** An environment variable that is set and not empty is truthy. */
  predicate SecretConfigured(secret: Option<string>) {
    secret.Some? && secret.value != ""
  }

  /**
   * `createDraftOrderWithProperties`: post the mapped checkout; when created
   * and `AUTO_COMPLETE_DRAFT_ORDER` is exactly "true", complete it. Any failure
   * is rethrown (`escaped`).
   */
  function CreateWithProperties(checkout: Checkout, autoComplete: Option<string>,
                                created: Downstream, completed: Downstream): Run {
    var post := [PostDraftOrder(DraftOrderWithProperties(checkout))];
    match created
    case Success(order, _) =>
      if autoComplete == Some("true") then Run(post + [CompleteDraftOrder(order.id)], !completed.Success?)
      else Run(post, false)
    case _ => Run(post, true)
  }

  /**
   * The `/webhooks/checkout/create` route. The catch block's `.json` call
   * comes after the acknowledgment has been sent, so it throws instead of
   * answering: a forwarding failure is an escaped exception, never a second
   * response.
   */
  function HandleWebhook(crypto: Crypto, stringify: Checkout -> string, config: ServerConfig,
                         body: Checkout, signature: Option<string>,
                         created: Downstream, completed: Downstream): Run {
    if SecretConfigured(config.webhookSecret)
       && !VerifySerialized(crypto, config.webhookSecret.value, stringify(body), signature)
    then Run([Respond(InvalidSignature)], false)
    else
      var forward := CreateWithProperties(body, config.autoComplete, created, completed);
      Run([Respond(Acknowledged)] + forward.effects, forward.escaped)
  }

  /** The webhook passes the gate: no secret configured, or the signature over the re-serialised body matches. */
  predicate WebhookAdmitted(crypto: Crypto, stringify: Checkout -> string, config: ServerConfig,
                            body: Checkout, signature: Option<string>) {
    !SecretConfigured(config.webhookSecret)
    || VerifySerialized(crypto, config.webhookSecret.value, stringify(body), signature)
  }

  /**
   * Exactly one response: 401 when a secret is configured and the signature
   * fails, with nothing sent downstream; otherwise 200, and then the mapped
   * checkout is posted once, after the acknowledgment.
   */
  lemma WebhookGate(crypto: Crypto, stringify: Checkout -> string, config: ServerConfig,
                    body: Checkout, signature: Option<string>, created: Downstream, completed: Downstream)
    ensures var run := HandleWebhook(crypto, stringify, config, body, signature, created, completed);
      && |Responses(run.effects)| == 1
      && AckBeforeDownstream(run.effects)
      && (!WebhookAdmitted(crypto, stringify, config, body, signature) ==>
            Responses(run.effects) == [InvalidSignature] && NoDownstreamCall(run.effects) && !run.escaped)
      && (WebhookAdmitted(crypto, stringify, config, body, signature) ==>
            Responses(run.effects) == [Acknowledged] && Posted(run.effects) == [DraftOrderWithProperties(body)])
  {
    var run := HandleWebhook(crypto, stringify, config, body, signature, created, completed);
    if WebhookAdmitted(crypto, stringify, config, body, signature) {
      var ack := [Respond(Acknowledged)];
      var forward := CreateWithProperties(body, config.autoComplete, created, completed);
      assert run.effects == ack + forward.effects;
      FiltersByPosition(forward.effects);
      assert Responses(forward.effects) == [] && Posted(forward.effects) == [DraftOrderWithProperties(body)];
      ResponsesAppend(ack, forward.effects);
      PostedAppend(ack, forward.effects);
      assert run.effects[0] == Respond(Acknowledged);
    } else {
      FiltersByPosition(run.effects);
    }
  }

  /** With no secret configured the signature is never looked at. */
  lemma WebhookSkipsUnsetSecret(crypto: Crypto, stringify: Checkout -> string, config: ServerConfig,
                                body: Checkout, sig1: Option<string>, sig2: Option<string>,
                                created: Downstream, completed: Downstream)
    requires !SecretConfigured(config.webhookSecret)
    ensures HandleWebhook(crypto, stringify, config, body, sig1, created, completed)
         == HandleWebhook(crypto, stringify, config, body, sig2, created, completed)
  {
  }

  /**
   * The created draft order is completed, with its own id, exactly when the
   * webhook is admitted, creation succeeded and the flag is exactly "true".
   */
  lemma AutoCompleteRule(crypto: Crypto, stringify: Checkout -> string, config: ServerConfig,
                         body: Checkout, signature: Option<string>, created: Downstream, completed: Downstream)
    ensures var run := HandleWebhook(crypto, stringify, config, body, signature, created, completed);
      && ((exists i :: 0 <= i < |run.effects| && run.effects[i].CompleteDraftOrder?) <==>
            WebhookAdmitted(crypto, stringify, config, body, signature)
            && created.Success? && config.autoComplete == Some("true"))
      && forall i :: 0 <= i < |run.effects| && run.effects[i].CompleteDraftOrder? ==>
            created.Success? && run.effects[i].id == created.order.id
  {
    var run := HandleWebhook(crypto, stringify, config, body, signature, created, completed);
    if WebhookAdmitted(crypto, stringify, config, body, signature) && created.Success?
       && config.autoComplete == Some("true") {
      assert run.effects[2].CompleteDraftOrder?;
    }
  }

  /**
   * An exception escapes exactly when the admitted forward fails (creation,
   * or completion when it was asked for); the single response is then the
   * acknowledgment already sent.
   */
  lemma WebhookFailureAfterAck(crypto: Crypto, stringify: Checkout -> string, config: ServerConfig,
                               body: Checkout, signature: Option<string>, created: Downstream, completed: Downstream)
    ensures var run := HandleWebhook(crypto, stringify, config, body, signature, created, completed);
      run.escaped <==>
        WebhookAdmitted(crypto, stringify, config, body, signature) &&
        (!created.Success? || (config.autoComplete == Some("true") && !completed.Success?))
    ensures var run := HandleWebhook(crypto, stringify, config, body, signature, created, completed);
      run.escaped ==> Responses(run.effects) == [Acknowledged]
  {
    var run := HandleWebhook(crypto, stringify, config, body, signature, created, completed);
    FiltersByPosition(run.effects);
  }

  /** The `/api/draft-orders` route: the manual flow, keeping an explicit null `taxable`. */
  function HandleManual(body: Option<ManualDraftOrders.ManualRequest>, d: Downstream): Run {
    ManualDraftOrders.ManualFlow(body, WhenUndefined, d)
  }

  /**
   * The route and api/draft-orders.js, given a POST, behave alike unless some
   * custom item has a null `taxable`; such an item is kept null here. Without
   * a body both answer 500 and send nothing.
   */
  lemma ManualRoutesAgree(body: Option<ManualDraftOrders.ManualRequest>, d: Downstream)
    requires body.Some? ==>
               forall j :: 0 <= j < |body.value.customItems.GetOr([])| ==>
                 body.value.customItems.GetOr([])[j].taxable != Null
    ensures HandleManual(body, d) == ManualDraftOrders.Handle("POST", body, d)
    ensures body.None? ==> HandleManual(body, d) == Run([Respond(CreateFailed)], false)
  {
    if body.Some? {
      CustomLinesRulesAgree(body.value.customItems.GetOr([]));
    }
  }

  /** The `/api/draft-orders/:id/custom-items` route: fetch the order, put back its line items plus one. */
  function HandleAddCustomItem(orderId: string, body: Option<CustomItem>, fetched: Downstream,
                               updated: Downstream): Run {
    match body
    case None => Run([Respond(AddFailed)], false)
    case Some(item) =>
      match fetched
      case Success(existing, _) =>
        Run([GetDraftOrder(orderId),
             PutDraftOrder(orderId, AppendCustomItem(existing.lineItems, item)),
             Respond(if updated.Success? then Response(200, Json(updated.data)) else AddFailed)], false)
      case _ => Run([GetDraftOrder(orderId), Respond(AddFailed)], false)
  }

  /**
   * One response: 200 with the downstream body when fetch and update succeed,
   * 500 otherwise. Given a body, the order is fetched first; without one
   * nothing is sent downstream. The update goes to the same order, only after
   * a successful fetch, and holds the existing line items unchanged followed
   * by the one new custom line.
   */
  lemma AddCustomItemOutcome(orderId: string, body: Option<CustomItem>, fetched: Downstream, updated: Downstream)
    ensures var run := HandleAddCustomItem(orderId, body, fetched, updated);
      && Responses(run.effects) ==
           (if body.Some? && fetched.Success? && updated.Success? then [Response(200, Json(updated.data))]
            else [AddFailed])
      && (body.Some? ==> run.effects[0] == GetDraftOrder(orderId))
      && (body.None? ==> NoDownstreamCall(run.effects))
      && ((exists i :: 0 <= i < |run.effects| && run.effects[i].PutDraftOrder?) <==> body.Some? && fetched.Success?)
      && forall i :: 0 <= i < |run.effects| && run.effects[i].PutDraftOrder? ==>
           var existing := fetched.order.lineItems;
           && 0 < i
           && run.effects[i].orderId == orderId
           && |run.effects[i].lineItems| == |existing| + 1
           && run.effects[i].lineItems[..|existing|] == existing
           && run.effects[i].lineItems[|existing|] == CustomLine(body.value, WhenUndefined)
  {
    var run := HandleAddCustomItem(orderId, body, fetched, updated);
    FiltersByPosition(run.effects);
    if body.Some? && fetched.Success? {
      AppendCustomItemShape(fetched.order.lineItems, body.value);
    }
  }
}
