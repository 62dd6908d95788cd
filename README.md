# Pawtraits serverless handlers, modelled in Dafny

Pawtraits turns a photo into a Renaissance-style portrait and sells prints of it.
The backend has three serverless HTTP handlers, and this project models the
deterministic logic inside them:

- `/api/generate` validates the request. It asks xAI's Grok Vision to describe
  the photo, then asks Grok Imagine to paint a portrait from a fixed prompt
  template. It then makes a best-effort upload of the image to Printify's media
  library.
- `/api/checkout` checks the chosen package against a fixed price table. It then
  builds the parameters of a Stripe checkout session, and that session's metadata
  carries the Printify image reference.
- `/api/webhook` receives Stripe's `checkout.session.completed` event. It runs
  the skip ladder and, when no check fails, builds and sends one Printify order.

Every handler is a total model from abstract inputs to an outcome:

- The request record.
- A record standing for the environment variables.
- The results of the upstream calls: a thrown error or a response with status and
  parsed body. For Stripe's library calls, the event or the error message.

The modules:

- `Js` holds JavaScript truthiness, the `a || b` default idiom and object-literal
  property lookup.
- `Text` holds `trim`, `split`/`join`, `toLowerCase` and decimal rendering.
- `Generate` is the generation handler. It is a method with early returns and the
  two Printify locals that a branch overwrites. It returns the response and the
  list of upstream calls it issued.
- `Webhook` and `Checkout` are pure functions.
- `Fulfilment` states how checkout's metadata drives the webhook.

Where the system's design description and the code disagree, the model follows
the code. The code has none of the following:

- gender or subject-count resolution;
- negative prompts;
- submit/poll/timeout job handling (there is one synchronous image call);
- a fallback of unknown categories to `self`.

An unknown category gets the empty modifier.

## Model

| member | source | states |
|---|---|---|
| Generate.Handle | api/generate.js:14-154 | The checks run in this order. A non-POST method gives 405 'Method not allowed'. A missing image or category gives 400. A missing XAI key gives 500. An absent label throws a TypeError, which also gives 500. All of these return before any upstream call, so the call list is empty. The first call is the vision call with the photo's data URL and the label. A vision-step error gives 500 with that step's message after exactly one call. Otherwise the second call asks for the portrait of the vision description in the request's category. An image-step error gives 500 with its message after exactly two calls. A POST with an image, a category, the XAI key and a label always reaches the vision call. A successful vision step always leads to the image call. A portrait is returned exactly when the request passes every check, has a label and both steps succeed. Its `imageData` is 'data:image/jpeg;base64,' followed by the image, and it includes the description. A third call, the upload, happens exactly when both Printify variables are set. Both Printify fields are null unless the upload returned parsed success. After a successful upload they hold the returned id and `preview_url`, or `url` when `preview_url` is falsy. |
| Generate.CatModifier | api/generate.js:31-37 | The modifier is non-empty exactly for pets, family, children, couples and self, with the table's text for each. It is '' for every other category. |
| Generate.Describe | api/generate.js:77 | The description is never empty. It is the trimmed vision content when that content has anything besides white space. Otherwise it is 'a noble subject'. |
| Generate.DescribeTrimmed | api/generate.js:77 | A description never begins or ends with white space. |
| Generate.PortraitPrompt | api/generate.js:81 | The prompt is the fixed opening, the description and the category's tail. The description can be read back whole from it. |
| Generate.PromptTail | api/generate.js:81 | What follows the description is '. ', then the category's modifier, then the fixed closing. The modifier can be read back from it. |
| Generate.PromptInjective | api/generate.js:81 | For one category, different descriptions give different prompts. |
| Generate.VisionInstruction | api/generate.js:62 | The vision instruction is the fixed opening 'Analyse this photo of my ', the lower-cased label and the fixed rest of the instruction. The lower-cased label can be read back from it. |
| Generate.PhotoUrl | api/generate.js:56 | The photo's data URL is 'data:', then the request's MIME type (or 'image/jpeg' when it is absent), then ';base64,' and the image. |
| Generate.UploadFileName | api/generate.js:124 | The upload file name is 'portrait-', the category, '-', the decimal rendering of the clock value and '.jpg'. |
| Generate.ErrorDetail | api/generate.js:71 | The provider's error message when it is truthy, otherwise 'HTTP ' followed by the decimal status. |
| Generate.VisionStage | api/generate.js:69-77 | The vision step succeeds exactly on an ok response with a JSON body. On success it yields the description of the content. A thrown fetch error passes its message through. A 401 gives the fixed invalid-key message. Any other non-ok status gives 'Grok Vision error: ' followed by the provider message or 'HTTP status'. A success body that is not JSON gives the parse error's message. |
| Generate.ImagineStage | api/generate.js:97-105 | The image step succeeds exactly on an ok response with JSON and a truthy `b64_json`, and then yields that non-empty string. A non-ok status gives 'Grok Imagine error: ' followed by the detail. A missing or empty image gives 'No image returned from Grok Imagine.'. A thrown error or a body that is not JSON passes its message through. |
| Generate.StageMessagesDistinct | api/generate.js:72-73 | The messages the two steps compose themselves never coincide: the invalid-key message and 'Grok Vision error: …' on the vision side, 'Grok Imagine error: …' and 'No image returned from Grok Imagine.' on the image side. A thrown fetch error or parse error is passed through unchanged by either step, so those can coincide. |
| Generate.CatModifierInheritedName | api/generate.js:80 | Counterexample: the lookup as written finds an inherited member for 'constructor', while the intended modifier is ''. |
| Webhook.GetPrintifyVariant | api/webhook.js:29-45 | Returns a product slot exactly for squire, noble and royal, each from its own variables, and nothing for any other key. |
| Webhook.SkipReason | api/webhook.js:101-115 | The ladder checks in order: Printify key and shop, then an image id or url, then a product id and non-zero variant id. It reports the first check that fails, and None exactly when all pass. |
| Webhook.SplitName | api/webhook.js:119-121 | Neither name part is ever empty, and the first name never contains a space. |
| Webhook.SplitNameParts | api/webhook.js:119-121 | No name, or an empty one, gives 'Customer'/'.'. A name without a space gives that name and '.'. |
| Webhook.SplitNameAt | api/webhook.js:119-121 | For a name whose first space is at index i, the first name is the text before that space (or 'Customer' when empty) and the last name is all the text after it (or '.' when empty). When text stands on both sides of that space, first name + ' ' + last name is the name. |
| Webhook.AddressOf | api/webhook.js:118 | The address is the shipping address when the session has one, and the empty address otherwise. |
| Webhook.RecipientOf | api/webhook.js:118-162 | The names are the split shipping name. The email is `customer_email`, else `customer_details.email`, else ''. The phone is `customer_details.phone`, else ''. The country is the address's country when truthy, else 'US', so it is never empty. Region, both address lines, city and zip are the address's `state`, `line1`, `line2`, `city` and `postal_code`, each '' when falsy. A missing address gives country 'US' and '' for the other five. |
| Webhook.MetadataOf | api/webhook.js:85 | The session's metadata when present. Otherwise every metadata field is absent. |
| Webhook.OrderLabel | api/webhook.js:135 | The order label is the category label (or 'Portrait'), then ' — ', then the package label as interpolated. |
| Webhook.BuildOrder | api/webhook.js:133-163 | `external_id` is the session id, and the label is the order label above. Shipping method is 1 and the shipping notification is requested. There is exactly one line item, with quantity 1 and the slot's product and variant. Its print area is the image url or ''. Its `metadata.image_id` is present exactly when the image id is truthy, and then equals it. `address_to` is the recipient. |
| Webhook.Handle | api/webhook.js:61-180 | Non-POST gives 405. A failed signature check gives 400 with 'Webhook Error: ' plus the message. Every other request gives 200 `{received: true}`. An order is issued exactly for a verified `checkout.session.completed` event that the skip ladder lets through. The order goes to the configured shop, with the configured key and the built payload. |
| Checkout.FindPackage | api/checkout.js:18-47 | A package is found exactly for squire, noble and royal, and it is that key's table entry. |
| Checkout.PackagePrices | api/checkout.js:18-34 | The prices are 4900, 8900 and 14900 cents. |
| Checkout.InheritedPackageNamePasses | api/checkout.js:43 | Counterexample: `pkg: 'toString'` passes the check as written, but it is not a package. |
| Checkout.MetadataFor | api/checkout.js:93-99 | `pkg` is unchanged and `pkg_label` is the package label. The category label, image id and image url are carried when truthy, and are '' otherwise. |
| Checkout.SessionFor | api/checkout.js:51-103 | One line item with quantity 1, currency usd and the package's amount. The images are [url] when the image url is truthy and [] otherwise. It has the metadata above. Both URLs start with `NEXT_PUBLIC_BASE_URL`, or with the default Vercel URL when that is unset. They end in '/success?session_id={CHECKOUT_SESSION_ID}' and '/#pricing'. |
| Checkout.Handle | api/checkout.js:36-111 | Non-POST gives 405. An invalid package gives 400 'Invalid package' and creates no session. Otherwise a session with those parameters is requested. The reply is 200 with its url, or 500 with the creator's error message. |
| Fulfilment.PackagesAgree | api/checkout.js:43 | Checkout accepts a package exactly when the webhook has a product slot for it (api/webhook.js:29-45). |
| Fulfilment.NoImageNoOrder | api/checkout.js:97-98 | A checkout without an image id or url leads to a webhook that acknowledges 200 and places no order (api/webhook.js:106-109). |
| Fulfilment.PaidCheckoutOrders | api/checkout.js:93-99 | Take a checkout that has an image reference, with Printify and the product configured. After payment the webhook places an order for it (api/webhook.js:134-147). The order label is the category label (or 'Portrait'), ' — ' and the package label. The print area is the image url or ''. The image id is carried when truthy, and `external_id` is the session id. |
| Text.TrimStart | api/generate.js:77 | `trim`'s leading half: the longest suffix that does not start with ECMAScript white space. Only white space is removed. |
| Text.TrimEnd | api/generate.js:77 | `trim`'s trailing half: the longest prefix that does not end with white space. Only white space is removed. |
| Text.TrimSlice | api/generate.js:77 | `trim` keeps the slice of its input that starts where the leading white space ends. Everything before and after that slice is white space. |
| Text.TrimEnds | api/generate.js:77 | A non-empty result of `trim` neither begins nor ends with white space. |
| Text.Trim | api/generate.js:77 | `trim` never lengthens its input, and gives '' exactly when the input is all white space. |
| Text.TrimTwice | api/generate.js:77 | `trim` is idempotent. |
| Text.Split | api/webhook.js:119 | `split(' ')` gives at least one piece, and no piece contains the separator. |
| Text.JoinSplit | api/webhook.js:119-121 | Joining the pieces of a split with the same separator gives back the original string. |
| Text.SplitAtFirst | api/webhook.js:119-121 | The first piece is the text before the first separator, and the remaining pieces joined are the text after it. A string without the separator splits to itself. |
| Text.SplitAtIndex | api/webhook.js:119-121 | When the first separator is at index i, the first piece is the text before i and the remaining pieces joined are the text after i. |
| Text.JoinAffixes | api/webhook.js:121 | `join` of no parts is ''. A join starts with its first part and ends with its last, and with two or more parts it holds at least both and one separator. |
| Text.ToLower | api/generate.js:62 | `toLowerCase` keeps the length. Each upper-case ASCII letter becomes its lower-case letter (code point plus 32), and every other character is kept. No upper-case ASCII letter remains. |
| Text.NatToString | api/generate.js:71 | The decimal rendering of a status is non-empty, has only digits and no leading zero. |
| Text.NatToStringValue | api/generate.js:71 | The decimal rendering reads back to the number. |

## Left out

- api/orders.js (admin order listing: a password check and an Airtable fetch) is not part of this model.
- The HTTP calls to xAI and Printify are inputs, not network operations. So are Stripe's `constructEvent` and `checkout.sessions.create`.
- Reading the raw request body as a stream (api/webhook.js:52-59) is I/O and is not modelled.
- `Date.now()` in the upload file name is the parameter `now` of `Generate.Handle`.
- The `console` logging is not modelled.
- The reply to the webhook's order request only reaches the log, so it is not an input. The webhook answers 200 whatever that reply is.
- The fixed parts of the xAI requests are not recorded in a `Generate.Call`. These are the model names, `max_tokens`, `detail`, `n` and `response_format`. A call records its key and the inputs its text is built from, and `Instruction()` and `Prompt()` give that text.
- The fixed request parts of the checkout session are constants of `Checkout.SessionFor`. These are the payment method, mode, countries and shipping rate.
- `parseInt` of a variant id variable is an optional integer, where None stands for an absent or NaN value.
- The Stripe client built from `STRIPE_SECRET_KEY` at module load is not modelled.
- Request and reply fields are strings or absent. Other JSON types are not modelled: numbers, objects, or a reply body that is JSON `null`, all of which make the code throw or print differently.
- `null` and an absent field are both None, and the code treats them differently in these places:
  - `imageMimeType: null` gives 'data:null;…', because the destructuring default applies only to an absent field (api/generate.js:20).
  - `pkg_label: null` gives '… — null' in the order label (api/webhook.js:135).
  - `catLabel: null` throws "Cannot read properties of null (reading 'toLowerCase')", where the model's message says `undefined` (api/generate.js:62).
- An upload reply without `id` leaves `printifyImageId` undefined, and `JSON.stringify` then drops the key from the reply. The model gives None, which stands for `null` (api/generate.js:131, api/generate.js:145).
- A Stripe session whose `url` is undefined gives the reply `{}`. The model's `SessionUrl(None)` stands for it (api/checkout.js:105).
- A POST without a body makes the destructuring at api/generate.js:20 and api/checkout.js:41 throw outside the `try`. The handler then rejects instead of answering. The model's request always has a body.
- Text.ToLower: lower-cases the ASCII letters only. Unicode case mapping of other letters in the category label is not modelled.
- Text.IsSpace: characters are Unicode scalar values, while JavaScript strings are UTF-16 code units. They agree on every white-space character `trim` removes.
- Webhook.GetPrintifyVariant: returns nothing for a key that names an `Object.prototype` member, where the code returns the inherited member. The webhook's outcome is the same either way, because that member has no `product_id` and the order is skipped.
- The response field `subjectDescription` is modelled. The object-literal key order of the JSON replies is not.

## Findings

| source | as written | input that shows it | evidently intended | confidence | as-written member | corrected member |
|---|---|---|---|---|---|---|
| api/checkout.js:43 | `!PACKAGES[pkg]` also finds members inherited from `Object.prototype`, which are truthy | `{"pkg": "toString"}` passes the check, and the session is requested with an undefined amount and label | 400 'Invalid package' for every value that is not squire, noble or royal | not executed; high (JavaScript property lookup) | Checkout.InheritedPackageNamePasses | Checkout.FindPackage |
| api/generate.js:80 | `catPromptModifiers[category] \|\| ''` finds inherited members for names such as 'constructor' | `{"category": "constructor"}` puts the source text of `Object` into the prompt | '' for every category outside the five keys | not executed; high (JavaScript property lookup) | Generate.CatModifierInheritedName | Generate.CatModifier |
