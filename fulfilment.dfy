/** How the checkout handler and the payment webhook fit together: the metadata
    written into the checkout session is what the webhook reads back from the
    completed-payment event. */
module Fulfilment {
  import opened Js
  import Checkout
  import Webhook

  /** What the webhook may read for a metadata value that checkout stored: the value
      itself or, for an empty value, possibly no key at all. */
  predicate Delivered(sent: string, seen: Option<string>)
  {
    seen == Some(sent) || (sent == "" && seen == None)
  }

  predicate Carries(sent: Checkout.SessionMetadata, seen: Webhook.Metadata)
  {
    && Delivered(sent.pkg, seen.pkg)
    && Delivered(sent.pkgLabel, seen.pkgLabel)
    && Delivered(sent.catLabel, seen.catLabel)
    && Delivered(sent.printifyImageId, seen.printifyImageId)
    && Delivered(sent.printifyImageUrl, seen.printifyImageUrl)
  }

  /** An event whose completed session carries the given checkout metadata. */
  predicate CompletedWith(event: Webhook.Event, sent: Checkout.SessionMetadata)
  {
    && event.kind == Webhook.CompletedEvent
    && event.session.metadata.Some?
    && Carries(sent, event.session.metadata.value)
  }

  /** The packages checkout accepts are exactly those the webhook has a product slot for. */
  lemma PackagesAgree(pkg: Option<string>, env: Webhook.Env)
    ensures Checkout.FindPackage(pkg).Some? <==> Webhook.GetPrintifyVariant(pkg, env).Some?
  {
  }

  /** A checkout request without an image id or url leads, once paid, to an
      acknowledged webhook that places no order. */
  lemma NoImageNoOrder(req: Checkout.Request, cenv: Checkout.Env, created: Result<Option<string>>,
                       event: Webhook.Event, env: Webhook.Env)
    requires Checkout.Handle(req, cenv, created).session.Some?
    requires !Truthy(req.printifyImageId) && !Truthy(req.printifyImageUrl)
    requires CompletedWith(event, Checkout.Handle(req, cenv, created).session.value.metadata)
    ensures Webhook.Handle("POST", Success(event), env).status == 200
    ensures Webhook.Handle("POST", Success(event), env).order.None?
  {
    var sent := Checkout.Handle(req, cenv, created).session.value.metadata;
    var seen := event.session.metadata.value;
    assert sent.printifyImageId == "" && sent.printifyImageUrl == "";
    assert !Webhook.HasImageReference(seen);
  }

  /** A paid checkout with an image reference, under a configured Printify shop and
      product, orders the purchased package for that image: the label joins the
      category label (or "Portrait") and the package label, the print area is the
      image url (or ''), and the image id travels along when there is one. */
  lemma PaidCheckoutOrders(req: Checkout.Request, cenv: Checkout.Env, created: Result<Option<string>>,
                           event: Webhook.Event, env: Webhook.Env)
    requires Checkout.Handle(req, cenv, created).session.Some?
    requires Truthy(req.printifyImageId) || Truthy(req.printifyImageUrl)
    requires CompletedWith(event, Checkout.Handle(req, cenv, created).session.value.metadata)
    requires Webhook.PrintifyConfigured(env) && Webhook.Ready(Webhook.GetPrintifyVariant(req.pkg, env))
    ensures var out := Webhook.Handle("POST", Success(event), env);
      && out.order.Some?
      && var order := out.order.value.payload;
      && order.externalId == event.session.id
      && order.title == Or(req.catLabel, "Portrait") + " — " + Checkout.Packages[req.pkg.value].title
      && order.lineItems[0].productId == Webhook.GetPrintifyVariant(req.pkg, env).value.productId.value
      && order.lineItems[0].variantId == Webhook.GetPrintifyVariant(req.pkg, env).value.variantId.value
      && order.lineItems[0].front == Or(req.printifyImageUrl, "")
      && order.lineItems[0].imageId == (if Truthy(req.printifyImageId) then req.printifyImageId else None)
  {
    var sent := Checkout.Handle(req, cenv, created).session.value.metadata;
    var seen := event.session.metadata.value;
    assert seen.pkg == req.pkg;
    assert seen.pkgLabel == Some(Checkout.Packages[req.pkg.value].title);
    assert Or(seen.catLabel, "Portrait") == Or(req.catLabel, "Portrait");
    assert Or(seen.printifyImageUrl, "") == Or(req.printifyImageUrl, "");
    assert Webhook.HasImageReference(seen);
  }
}
