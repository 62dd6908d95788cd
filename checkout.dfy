/** The checkout handler (`/api/checkout`): validate the package against the fixed
    price table and ask Stripe for a checkout session that carries the Printify
    image reference in its metadata. The session creator is an input: the URL of
    the created session, or the message of the error it threw. */
module Checkout {
  import opened Js

  /** A package: display label (`label`), description, price in cents. */
  datatype Package = Package(title: string, description: string, amount: nat)

  const Packages: map<string, Package> := map[
    "squire" := Package("Squire Pack", "8×10 archival canvas print + 300 DPI digital file", 4900),
    "noble" := Package("Noble Pack", "12×16 archival canvas print with ornate gold frame + digital file", 8900),
    "royal" := Package("Royal Pack", "18×24 archival canvas print with walnut frame + digital file", 14900)
  ]

  const DefaultBaseUrl := "https://pawtraits-omega.vercel.app"

  const AllowedCountries: seq<string> := [
    "US", "GB", "CA", "AU", "DE", "FR", "IT", "ES", "NL", "BE",
    "AT", "CH", "SE", "NO", "DK", "FI", "IE", "PT", "PL", "CZ",
    "AE", "SA", "SG", "JP", "NZ"
  ]

  /** The JSON request body. */
  datatype Request = Request(httpMethod: string, pkg: Option<string>, printifyImageId: Option<string>,
                             printifyImageUrl: Option<string>, catLabel: Option<string>)

  /** `NEXT_PUBLIC_BASE_URL`. */
  datatype Env = Env(baseUrl: Option<string>)

  datatype ProductData = ProductData(name: string, description: string, images: seq<string>)
  datatype PriceData = PriceData(currency: string, unitAmount: nat, product: ProductData)
  datatype SessionLineItem = SessionLineItem(price: PriceData, quantity: nat)

  /** A fixed-amount shipping rate with its delivery estimate in business days. */
  datatype ShippingRate = ShippingRate(amount: nat, currency: string, displayName: string,
                                       minBusinessDays: nat, maxBusinessDays: nat)

  /** The session metadata; every value is a string. */
  datatype SessionMetadata = SessionMetadata(pkg: string, pkgLabel: string, catLabel: string,
                                             printifyImageId: string, printifyImageUrl: string)

  /** The parameters passed to `stripe.checkout.sessions.create`. */
  datatype SessionParams = SessionParams(
    paymentMethodTypes: seq<string>,
    mode: string,
    lineItems: seq<SessionLineItem>,
    allowedCountries: seq<string>,
    shippingOptions: seq<ShippingRate>,
    metadata: SessionMetadata,
    successUrl: string,
    cancelUrl: string)

  /** The JSON reply. */
  datatype Reply = ErrorReply(error: string) | SessionUrl(url: Option<string>)

  /** Status, reply, and the session parameters sent to Stripe, if any. */
  datatype Outcome = Outcome(status: nat, reply: Reply, session: Option<SessionParams>)

  /** The package of a request's `pkg`: found exactly for the three package keys. */
  function FindPackage(pkg: Option<string>): (r: Option<Package>)
    ensures r.Some? <==> pkg.Some? && pkg.value in {"squire", "noble", "royal"}
    ensures r.Some? ==> r.value == Packages[pkg.value]
  {
    if Truthy(pkg) then
      match Lookup(Packages, pkg.value)
      case Own(pack) => Some(pack)
      case _ => None
    else None
  }

  /** The table's prices in cents. */
  lemma PackagePrices()
    ensures FindPackage(Some("squire")).value.amount == 4900
    ensures FindPackage(Some("noble")).value.amount == 8900
    ensures FindPackage(Some("royal")).value.amount == 14900
  {
  }

  /** `!pkg || !PACKAGES[pkg]` as written, negated: the lookup also finds the members
      every object inherits from Object.prototype, and those are truthy. */
  predicate PassesValidationAsWritten(pkg: Option<string>)
  {
    Truthy(pkg) && !Lookup(Packages, pkg.value).Missing?
  }

  /** Counterexample: `pkg: "toString"` passes the check as written although it is
      not a package, so the request is not answered 400 'Invalid package'. */
  lemma InheritedPackageNamePasses()
    ensures PassesValidationAsWritten(Some("toString"))
    ensures FindPackage(Some("toString")).None?
  {
  }

  /** The session metadata: `pkg` unchanged, the package label, and '' for each
      absent or empty optional value. */
  function MetadataFor(pkg: string, pack: Package, req: Request): (m: SessionMetadata)
    ensures m.pkg == pkg && m.pkgLabel == pack.title
    ensures Truthy(req.catLabel) ==> m.catLabel == req.catLabel.value
    ensures Truthy(req.printifyImageId) ==> m.printifyImageId == req.printifyImageId.value
    ensures Truthy(req.printifyImageUrl) ==> m.printifyImageUrl == req.printifyImageUrl.value
    ensures !Truthy(req.catLabel) ==> m.catLabel == ""
    ensures !Truthy(req.printifyImageId) ==> m.printifyImageId == ""
    ensures !Truthy(req.printifyImageUrl) ==> m.printifyImageUrl == ""
  {
    SessionMetadata(pkg, pack.title, Or(req.catLabel, ""), Or(req.printifyImageId, ""),
                    Or(req.printifyImageUrl, ""))
  }

  /** The session parameters for a valid package. */
  function SessionFor(pkg: string, pack: Package, req: Request, env: Env): (p: SessionParams)
    ensures |p.lineItems| == 1 && p.lineItems[0].quantity == 1
    ensures p.lineItems[0].price.currency == "usd" && p.lineItems[0].price.unitAmount == pack.amount
    ensures p.lineItems[0].price.product.images ==
      (if Truthy(req.printifyImageUrl) then [req.printifyImageUrl.value] else [])
    ensures p.metadata == MetadataFor(pkg, pack, req)
    ensures p.successUrl == Or(env.baseUrl, DefaultBaseUrl) + "/success?session_id={CHECKOUT_SESSION_ID}"
    ensures p.cancelUrl == Or(env.baseUrl, DefaultBaseUrl) + "/#pricing"
  {
    var baseUrl := Or(env.baseUrl, DefaultBaseUrl);
    SessionParams(
      ["card"],
      "payment",
      [SessionLineItem(
        PriceData("usd", pack.amount,
          ProductData("Pawtraits — " + pack.title, pack.description,
                      if Truthy(req.printifyImageUrl) then [req.printifyImageUrl.value] else [])),
        1)],
      AllowedCountries,
      [ShippingRate(0, "usd", "Standard Shipping", 7, 14)],
      MetadataFor(pkg, pack, req),
      baseUrl + "/success?session_id={CHECKOUT_SESSION_ID}",
      baseUrl + "/#pricing")
  }

  /** The handler. `created` is what the session creator produced. */
  function Handle(req: Request, env: Env, created: Result<Option<string>>): (out: Outcome)
    ensures out.status == 405 <==> req.httpMethod != "POST"
    ensures out.status == 405 ==> out.reply == ErrorReply("Method not allowed") && out.session.None?
    ensures out.status == 400 <==> req.httpMethod == "POST" && FindPackage(req.pkg).None?
    ensures out.status == 400 ==> out.reply == ErrorReply("Invalid package") && out.session.None?
    ensures out.session.Some? <==> req.httpMethod == "POST" && FindPackage(req.pkg).Some?
    ensures out.session.Some? ==>
      && out.session.value == SessionFor(req.pkg.value, Packages[req.pkg.value], req, env)
      && (created.Success? ==> out.status == 200 && out.reply == SessionUrl(created.value))
      && (created.Failure? ==> out.status == 500 && out.reply == ErrorReply(created.error))
  {
    if req.httpMethod != "POST" then Outcome(405, ErrorReply("Method not allowed"), None)
    else match FindPackage(req.pkg)
      case None => Outcome(400, ErrorReply("Invalid package"), None)
      case Some(pack) =>
        var params := SessionFor(req.pkg.value, pack, req, env);
        match created
        case Success(url) => Outcome(200, SessionUrl(url), Some(params))
        case Failure(message) => Outcome(500, ErrorReply(message), Some(params))
  }
}
