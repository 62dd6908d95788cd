/** The payment webhook (`/api/webhook`): on a verified `checkout.session.completed`
    event it places a Printify order for the purchased package, unless a
    configuration or metadata check says to skip it. Every request that passes the
    method and signature checks is acknowledged with 200 `{received: true}`,
    whatever happens to the order. */
module Webhook {
  import opened Js
  import opened Text

  /** One package's Printify product: `PRINTIFY_PRODUCT_ID_*` and
      `parseInt(PRINTIFY_VARIANT_ID_*)`, where None stands for NaN. */
  datatype Slot = Slot(productId: Option<string>, variantId: Option<int>)

  /** The environment variables the handler reads. */
  datatype Env = Env(printifyKey: Option<string>, printifyShop: Option<string>,
                     squire: Slot, noble: Slot, royal: Slot)

  /** The session metadata written at checkout. */
  datatype Metadata = Metadata(pkg: Option<string>, pkgLabel: Option<string>, catLabel: Option<string>,
                               printifyImageId: Option<string>, printifyImageUrl: Option<string>)

  datatype Address = Address(country: Option<string>, state: Option<string>, line1: Option<string>,
                             line2: Option<string>, city: Option<string>, postalCode: Option<string>)

  datatype Shipping = Shipping(name: Option<string>, address: Option<Address>)

  datatype CustomerDetails = CustomerDetails(email: Option<string>, phone: Option<string>)

  /** The checkout session carried by the event. */
  datatype Session = Session(id: string, metadata: Option<Metadata>, shipping: Option<Shipping>,
                             customerEmail: Option<string>, customerDetails: Option<CustomerDetails>)

  /** A Stripe event: its type and `data.object`. */
  datatype Event = Event(kind: string, session: Session)

  /** The `address_to` record of a Printify order. */
  datatype Recipient = Recipient(firstName: string, lastName: string, email: string, phone: string,
                                 country: string, region: string, address1: string, address2: string,
                                 city: string, zip: string)

  /** The single line item: product, variant, quantity, `print_areas.front`, and
      `metadata.image_id` when present. */
  datatype LineItem = LineItem(productId: string, variantId: int, quantity: nat, front: string,
                               imageId: Option<string>)

  datatype OrderPayload = OrderPayload(externalId: string, title: string, lineItems: seq<LineItem>,
                                       shippingMethod: nat, sendShippingNotification: bool,
                                       addressTo: Recipient)

  /** The order request: shop in the URL, bearer key, JSON payload. */
  datatype OrderRequest = OrderRequest(shop: string, key: string, payload: OrderPayload)

  /** The JSON reply. */
  datatype Reply = ErrorReply(error: string) | Received

  /** Status, reply, and the Printify order the handler issued, if any. */
  datatype Outcome = Outcome(status: nat, reply: Reply, order: Option<OrderRequest>)

  /** Why order creation was skipped, in the order the handler checks. */
  datatype Skip = PrintifyUnconfigured | NoImageReference | VariantUnconfigured

  const CompletedEvent := "checkout.session.completed"
  const NoMetadata := Metadata(None, None, None, None, None)
  const NoAddress := Address(None, None, None, None, None, None)

  /** The Printify product of a package key: a slot for the three package keys,
      none for every other value. */
  function GetPrintifyVariant(pkg: Option<string>, env: Env): (r: Option<Slot>)
    ensures r.Some? <==> pkg.Some? && pkg.value in {"squire", "noble", "royal"}
    ensures pkg == Some("squire") ==> r == Some(env.squire)
    ensures pkg == Some("noble") ==> r == Some(env.noble)
    ensures pkg == Some("royal") ==> r == Some(env.royal)
  {
    match pkg
    case Some("squire") => Some(env.squire)
    case Some("noble") => Some(env.noble)
    case Some("royal") => Some(env.royal)
    case _ => None
  }

  /** Both the product id and the variant id are truthy. */
  predicate Ready(variant: Option<Slot>)
  {
    variant.Some? && Truthy(variant.value.productId) && TruthyInt(variant.value.variantId)
  }

  predicate PrintifyConfigured(env: Env)
  {
    Truthy(env.printifyKey) && Truthy(env.printifyShop)
  }

  predicate HasImageReference(m: Metadata)
  {
    Truthy(m.printifyImageId) || Truthy(m.printifyImageUrl)
  }

  /** The skip ladder: the first check that fails, or None when the order is placed. */
  function SkipReason(env: Env, m: Metadata): (r: Option<Skip>)
    ensures r == None <==> PrintifyConfigured(env) && HasImageReference(m) && Ready(GetPrintifyVariant(m.pkg, env))
    ensures r == Some(PrintifyUnconfigured) <==> !PrintifyConfigured(env)
    ensures r == Some(NoImageReference) <==> PrintifyConfigured(env) && !HasImageReference(m)
    ensures r == Some(VariantUnconfigured) <==>
      PrintifyConfigured(env) && HasImageReference(m) && !Ready(GetPrintifyVariant(m.pkg, env))
  {
    if !PrintifyConfigured(env) then Some(PrintifyUnconfigured)
    else if !HasImageReference(m) then Some(NoImageReference)
    else if !Ready(GetPrintifyVariant(m.pkg, env)) then Some(VariantUnconfigured)
    else None
  }

  /** First and last name from the shipping name: the text before the first space
      (or "Customer") and the remaining words joined by spaces (or "."). */
  function SplitName(name: Option<string>): (r: (string, string))
    ensures r.0 != "" && r.1 != ""
    ensures ' ' !in r.0
  {
    var parts := Split(Or(name, "Customer"), ' ');
    (Or(Some(parts[0]), "Customer"), Or(Some(Join(parts[1..], " ")), "."))
  }

  /** The name parts of no name and of a one-word name: no name gives "Customer"
      and "."; a one-word name is the first name with last name ".". */
  lemma SplitNameParts(name: Option<string>)
    ensures SplitName(name).0 != "" && SplitName(name).1 != ""
    ensures ' ' !in SplitName(name).0
    ensures !Truthy(name) ==> SplitName(name) == ("Customer", ".")
    ensures Truthy(name) && ' ' !in name.value ==> SplitName(name) == (name.value, ".")
  {
    var s := Or(name, "Customer");
    SplitAtFirst(s, ' ');
    if !Truthy(name) {
      assert ' ' !in s;
    }
  }

  /** The name parts of a name whose first space is at index `i`: the first name
      is the text before that space and the last name the text after it, each
      with its default when empty. So a name with text on both sides of its first
      space is the two parts rejoined by a space. */
  lemma SplitNameAt(s: string, i: nat)
    requires i < |s| && s[i] == ' ' && ' ' !in s[..i]
    ensures SplitName(Some(s)) == (Or(Some(s[..i]), "Customer"), Or(Some(s[i + 1..]), "."))
    ensures 0 < i < |s| - 1 ==> SplitName(Some(s)).0 + " " + SplitName(Some(s)).1 == s
  {
    SplitAtIndex(s, ' ', i);
    if 0 < i < |s| - 1 {
      assert s == s[..i] + " " + s[i + 1..];
    }
  }

  /** `shipping?.address || {}`: the shipping address, or one with every field absent. */
  function AddressOf(session: Session): (a: Address)
    ensures session.shipping.Some? && session.shipping.value.address.Some? ==> a == session.shipping.value.address.value
    ensures session.shipping.None? || session.shipping.value.address.None? ==> a == NoAddress
  {
    if session.shipping.Some? && session.shipping.value.address.Some?
    then session.shipping.value.address.value else NoAddress
  }

  /** The `address_to` record: names from the shipping name; email from
      `customer_email`, then `customer_details.email`, then ''; phone from
      `customer_details.phone` or ''; each address field from the address with
      its own default: country "US", every other field ''. */
  function RecipientOf(session: Session): (r: Recipient)
    ensures (r.firstName, r.lastName) == SplitName(if session.shipping.Some? then session.shipping.value.name else None)
    ensures Truthy(session.customerEmail) ==> r.email == session.customerEmail.value
    ensures !Truthy(session.customerEmail) && session.customerDetails.Some? && Truthy(session.customerDetails.value.email) ==>
      r.email == session.customerDetails.value.email.value
    ensures !Truthy(session.customerEmail) && (session.customerDetails.None? || !Truthy(session.customerDetails.value.email)) ==>
      r.email == ""
    ensures session.customerDetails.Some? && Truthy(session.customerDetails.value.phone) ==>
      r.phone == session.customerDetails.value.phone.value
    ensures session.customerDetails.None? || !Truthy(session.customerDetails.value.phone) ==> r.phone == ""
    ensures Truthy(AddressOf(session).country) ==> r.country == AddressOf(session).country.value
    ensures !Truthy(AddressOf(session).country) ==> r.country == "US"
    ensures r.region == Or(AddressOf(session).state, "")
    ensures r.address1 == Or(AddressOf(session).line1, "")
    ensures r.address2 == Or(AddressOf(session).line2, "")
    ensures r.city == Or(AddressOf(session).city, "")
    ensures r.zip == Or(AddressOf(session).postalCode, "")
    ensures r.country != ""
    ensures session.shipping.None? || session.shipping.value.address.None? ==>
      r.country == "US" && r.region == "" && r.address1 == "" && r.address2 == "" && r.city == "" && r.zip == ""
  {
    var addr := AddressOf(session);
    var details := if session.customerDetails.Some? then session.customerDetails.value
                   else CustomerDetails(None, None);
    var name := SplitName(if session.shipping.Some? then session.shipping.value.name else None);
    Recipient(
      name.0, name.1,
      Or(session.customerEmail, Or(details.email, "")),
      Or(details.phone, ""),
      Or(addr.country, "US"),
      Or(addr.state, ""),
      Or(addr.line1, ""),
      Or(addr.line2, ""),
      Or(addr.city, ""),
      Or(addr.postalCode, ""))
  }

  /** The order label: `(cat_label || 'Portrait') + ' — ' + pkg_label`. */
  function OrderLabel(m: Metadata): (r: string)
    ensures Between(r, Or(m.catLabel, "Portrait"), Interpolate(m.pkgLabel)) == Some(" — ")
  {
    BetweenOfConcat(Or(m.catLabel, "Portrait"), " — ", Interpolate(m.pkgLabel));
    Or(m.catLabel, "Portrait") + " — " + Interpolate(m.pkgLabel)
  }

  /** The order payload for a session whose package has a ready product slot. */
  function BuildOrder(session: Session, m: Metadata, slot: Slot): (p: OrderPayload)
    requires Ready(Some(slot))
    ensures p.externalId == session.id
    ensures p.title == Or(m.catLabel, "Portrait") + " — " + Interpolate(m.pkgLabel)
    ensures p.shippingMethod == 1 && p.sendShippingNotification
    ensures |p.lineItems| == 1 && p.lineItems[0].quantity == 1
    ensures p.lineItems[0].productId == slot.productId.value && p.lineItems[0].variantId == slot.variantId.value
    ensures p.lineItems[0].front == Or(m.printifyImageUrl, "")
    ensures p.lineItems[0].imageId.Some? <==> Truthy(m.printifyImageId)
    ensures p.lineItems[0].imageId.Some? ==> p.lineItems[0].imageId == m.printifyImageId
    ensures p.addressTo == RecipientOf(session)
  {
    OrderPayload(
      session.id,
      OrderLabel(m),
      [LineItem(slot.productId.value, slot.variantId.value, 1, Or(m.printifyImageUrl, ""),
                if Truthy(m.printifyImageId) then m.printifyImageId else None)],
      1,
      true,
      RecipientOf(session))
  }

  /** `session.metadata || {}` */
  function MetadataOf(session: Session): (m: Metadata)
    ensures session.metadata.Some? ==> m == session.metadata.value
    ensures session.metadata.None? ==>
      && m.pkg.None? && m.pkgLabel.None? && m.catLabel.None?
      && m.printifyImageId.None? && m.printifyImageUrl.None?
  {
    if session.metadata.Some? then session.metadata.value else NoMetadata
  }

  /** The handler. `verified` is the result of Stripe's signature check on the raw
      body: the event, or the message it threw. */
  function Handle(httpMethod: string, verified: Result<Event>, env: Env): (out: Outcome)
    ensures out.status == 405 <==> httpMethod != "POST"
    ensures out.status == 405 ==> out.reply == ErrorReply("Method not allowed")
    ensures out.status == 400 <==> httpMethod == "POST" && verified.Failure?
    ensures out.status == 400 ==> out.reply == ErrorReply("Webhook Error: " + verified.error)
    ensures out.status == 200 <==> httpMethod == "POST" && verified.Success?
    ensures out.status == 200 ==> out.reply == Received
    ensures out.status in {200, 400, 405}
    ensures out.order.Some? <==>
      httpMethod == "POST" && verified.Success? && verified.value.kind == CompletedEvent
      && SkipReason(env, MetadataOf(verified.value.session)) == None
    ensures out.order.Some? ==>
      var session := verified.value.session;
      var m := MetadataOf(session);
      && out.order.value.shop == env.printifyShop.value
      && out.order.value.key == env.printifyKey.value
      && out.order.value.payload == BuildOrder(session, m, GetPrintifyVariant(m.pkg, env).value)
  {
    if httpMethod != "POST" then Outcome(405, ErrorReply("Method not allowed"), None)
    else if verified.Failure? then Outcome(400, ErrorReply("Webhook Error: " + verified.error), None)
    else if verified.value.kind != CompletedEvent then Outcome(200, Received, None)
    else
      var session := verified.value.session;
      var m := MetadataOf(session);
      if SkipReason(env, m).Some? then Outcome(200, Received, None)
      else
        var slot := GetPrintifyVariant(m.pkg, env).value;
        Outcome(200, Received, Some(OrderRequest(env.printifyShop.value, env.printifyKey.value,
                                                 BuildOrder(session, m, slot))))
  }
}
