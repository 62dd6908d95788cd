/** The portrait generation handler (`/api/generate`): validate the request, ask
    Grok Vision to describe the photo, ask Grok Imagine for a Renaissance portrait
    of that description, then try to put the image into Printify's media library.
    The three HTTP calls are inputs (`Fetched` values) and the handler reports the
    calls it issued, so that "no upstream call is made" can be stated. */
module Generate {
  import opened Js
  import opened Text

  /** A parsed response body: the JSON value, or the reason `res.json()` threw. */
  datatype Body<T> = Json(value: T) | NotJson(reason: string)

  /** What `await fetch(...)` produced: a thrown network error, or a response. */
  datatype Fetched<T> = Threw(message: string) | Replied(status: nat, body: Body<T>)
  {
    /** `res.ok` of the Fetch API. */
    predicate Ok()
    {
      Replied? && 200 <= status <= 299
    }
  }

  /** The fields read from Grok Vision's reply: `error.message` and
      `choices[0].message.content`. */
  datatype VisionBody = VisionBody(errorMessage: Option<string>, content: Option<string>)

  /** The fields read from Grok Imagine's reply: `error.message` and `data[0].b64_json`. */
  datatype ImageBody = ImageBody(errorMessage: Option<string>, b64: Option<string>)

  /** The fields read from Printify's upload reply. */
  datatype UploadBody = UploadBody(id: Option<string>, previewUrl: Option<string>, url: Option<string>)

  /** The JSON request body. */
  datatype Request = Request(
    httpMethod: string,
    imageBase64: Option<string>,
    imageMimeType: Option<string>,
    category: Option<string>,
    catLabel: Option<string>)

  /** The environment variables the handler reads. */
  datatype Env = Env(xaiKey: Option<string>, printifyKey: Option<string>, printifyShop: Option<string>)

  /** An upstream HTTP call, recorded by the inputs that determine its request:
      the bearer key, and what the request's text is built from. */
  datatype Call =
    | VisionCall(key: string, imageUrl: string, catLabel: string)
    | ImagineCall(key: string, subject: string, category: string)
    | UploadCall(key: string, fileName: string, contents: string)
  {
    /** The text part of the vision request. */
    function Instruction(): string
      requires VisionCall?
    {
      VisionInstruction(catLabel)
    }

    /** The prompt sent to the image model. */
    function Prompt(): string
      requires ImagineCall?
    {
      PortraitPrompt(subject, category)
    }
  }

  /** The handler's JSON reply: `{error}` with a failure status, or the portrait with status 200. */
  datatype Response =
    | ErrorResponse(status: nat, error: string)
    | Portrait(imageData: string, printifyImageId: Option<string>, printifyImageUrl: Option<string>,
               subjectDescription: string)

  const MethodNotAllowed := "Method not allowed"
  const MissingInput := "Missing imageBase64 or category"
  const MissingKey := "Server misconfiguration: XAI_API_KEY not set"
  /** V8's TypeError message for `catLabel.toLowerCase()` when `catLabel` is absent. */
  const LabelTypeError := "Cannot read properties of undefined (reading 'toLowerCase')"
  const InvalidKey := "Invalid xAI API key. " + "Check your XAI_API_KEY environment variable."
  const VisionErrorPrefix := "Grok Vision error: "
  const ImagineErrorPrefix := "Grok Imagine error: "
  const NoImage := "No image returned from Grok Imagine."
  const NobleSubject := "a noble subject"
  const DataUrlPrefix := "data:image/jpeg;base64,"

  const CatModifiers: map<string, string> := map[
    "pets" := "This is a beloved pet. Dress them in miniature royal regalia with a velvet cushion. The animal should look regal, dignified, and noble.",
    "family" := "This is a family group portrait. Pose them together in aristocratic fashion with warm familial closeness.",
    "children" := "This is a child. Crown them with a small gold coronet and dress them in royal robes. Cherubic, innocent, regal.",
    "couples" := "This is a couple. Pose them together with a tender, aristocratic intimacy. Two nobles deeply bonded.",
    "self" := "This is a solo self-portrait. Dramatic three-quarter view, piercing gaze, self-assured noble bearing."
  ]

  const PromptOpening :=
    "A breathtaking Renaissance oil painting portrait in the style of the old masters"
    + " — Rembrandt van Rijn, Anthony van Dyck, Johannes Vermeer. The subject: "
  const PromptClosing :=
    " Dramatic chiaroscuro lighting with warm golden candlelight casting rich shadows."
    + " Deep jewel-toned background in burgundy and forest green with subtle texture."
    + " Elaborate period regalia — velvet robes, gold chain of office, intricate lace ruff collar, ornate jewellery."
    + " Painted with masterful brushwork, rich impasto texture, aged museum-quality canvas."
    + " Highly detailed, cinematic, 17th century Flemish painting style."
    + " Ultra high resolution."

  /** The style modifier of a category: the table's text for the five known
      categories, and the empty string for every other name. */
  function CatModifier(category: string): (r: string)
    ensures r != "" <==> category in {"pets", "family", "children", "couples", "self"}
    ensures category in CatModifiers ==> r == CatModifiers[category]
  {
    match Lookup(CatModifiers, category)
    case Own(text) => text
    case _ => ""
  }

  /** `catPromptModifiers[category] || ''` as written: a category that names an
      Object.prototype member finds that inherited member, which is truthy, so the
      `''` fallback is not taken for it. */
  function CatModifierAsWritten(category: string): Property<string>
  {
    match Lookup(CatModifiers, category)
    case Missing => Own("")
    case found => found
  }

  /** Counterexample: for the category "constructor" the lookup as written
      interpolates an inherited function instead of falling back to ''. */
  lemma CatModifierInheritedName()
    ensures CatModifierAsWritten("constructor").Inherited?
    ensures CatModifier("constructor") == ""
  {
  }

  /** The subject description: the trimmed vision text, or "a noble subject" when
      that text is absent or only white space. */
  function Describe(content: Option<string>): (d: string)
    ensures d != ""
    ensures content.Some? && !AllSpace(content.value) ==> d == Trim(content.value)
    ensures content.None? || AllSpace(content.value) ==> d == NobleSubject
  {
    if content.Some? && Trim(content.value) != "" then Trim(content.value) else NobleSubject
  }

  /** A described subject never starts or ends with white space. */
  lemma DescribeTrimmed(content: Option<string>)
    ensures !IsSpace(Describe(content)[0]) && !IsSpace(Describe(content)[|Describe(content)| - 1])
  {
    var d := Describe(content);
    if content.Some? && !AllSpace(content.value) {
      TrimEnds(content.value);
    } else {
      assert d == NobleSubject;
      assert d[0] == 'a' && d[|d| - 1] == 't';
    }
  }

  /** What follows the description in the prompt: ". ", the category's modifier,
      the fixed closing. */
  function PromptTail(category: string): (t: string)
    ensures Between(t, ". ", PromptClosing) == Some(CatModifier(category))
  {
    BetweenOfConcat(". ", CatModifier(category), PromptClosing);
    ". " + CatModifier(category) + PromptClosing
  }

  /** Reads the description back out of a prompt composed for `category`. */
  function SubjectOf(prompt: string, category: string): Option<string>
  {
    Between(prompt, PromptOpening, PromptTail(category))
  }

  /** The portrait prompt: fixed opening, description, then the category's tail.
      The prompt keeps the whole description: it can be read back from it. */
  function PortraitPrompt(subject: string, category: string): (p: string)
    ensures SubjectOf(p, category) == Some(subject)
  {
    BetweenOfConcat(PromptOpening, subject, PromptTail(category));
    PromptOpening + subject + PromptTail(category)
  }

  /** So, for one category, different descriptions give different prompts. */
  lemma PromptInjective(s1: string, s2: string, category: string)
    requires PortraitPrompt(s1, category) == PortraitPrompt(s2, category)
    ensures s1 == s2
  {
    assert SubjectOf(PortraitPrompt(s1, category), category) == Some(s1);
    assert SubjectOf(PortraitPrompt(s2, category), category) == Some(s2);
  }

  /** The provider's `error.message`, or "HTTP <status>" when it is absent or empty. */
  function ErrorDetail(status: nat, message: Option<string>): (r: string)
    ensures Truthy(message) ==> r == message.value
    ensures !Truthy(message) ==> r == "HTTP " + NatToString(status)
  {
    Or(message, "HTTP " + NatToString(status))
  }

  /** The outcome of the vision step: the subject description, or the message of
      the error the step throws. */
  function VisionStage(vision: Fetched<VisionBody>): (r: Result<string>)
    ensures r.Success? <==> vision.Ok() && vision.body.Json?
    ensures r.Success? ==> r.value == Describe(vision.body.value.content)
    ensures vision.Threw? ==> r == Failure(vision.message)
    ensures vision.Replied? && vision.status == 401 ==> r == Failure(InvalidKey)
    ensures vision.Replied? && !vision.Ok() && vision.status != 401 ==>
      r == Failure(VisionErrorPrefix + ErrorDetail(vision.status,
        if vision.body.Json? then vision.body.value.errorMessage else None))
    ensures vision.Ok() && vision.body.NotJson? ==> r == Failure(vision.body.reason)
  {
    match vision
    case Threw(m) => Failure(m)
    case Replied(status, body) =>
      if !vision.Ok() then
        var message := if body.Json? then body.value.errorMessage else None;
        if status == 401 then Failure(InvalidKey)
        else Failure(VisionErrorPrefix + ErrorDetail(status, message))
      else match body
        case NotJson(reason) => Failure(reason)
        case Json(v) => Success(Describe(v.content))
  }

  /** The outcome of the image step: the base64 image, or the message of the
      error the step throws. */
  function ImagineStage(imagine: Fetched<ImageBody>): (r: Result<string>)
    ensures r.Success? <==> imagine.Ok() && imagine.body.Json? && Truthy(imagine.body.value.b64)
    ensures r.Success? ==> r.value == imagine.body.value.b64.value && r.value != ""
    ensures imagine.Threw? ==> r == Failure(imagine.message)
    ensures imagine.Replied? && !imagine.Ok() ==>
      r == Failure(ImagineErrorPrefix + ErrorDetail(imagine.status,
        if imagine.body.Json? then imagine.body.value.errorMessage else None))
    ensures imagine.Ok() && imagine.body.NotJson? ==> r == Failure(imagine.body.reason)
    ensures imagine.Ok() && imagine.body.Json? && !Truthy(imagine.body.value.b64) ==> r == Failure(NoImage)
  {
    match imagine
    case Threw(m) => Failure(m)
    case Replied(status, body) =>
      if !imagine.Ok() then
        var message := if body.Json? then body.value.errorMessage else None;
        Failure(ImagineErrorPrefix + ErrorDetail(status, message))
      else match body
        case NotJson(reason) => Failure(reason)
        case Json(v) => if Truthy(v.b64) then Success(v.b64.value) else Failure(NoImage)
  }

  /** The messages of the two steps' own errors never coincide, so the caller can
      tell which upstream step failed. */
  lemma StageMessagesDistinct(status1: nat, m1: Option<string>, status2: nat, m2: Option<string>)
    ensures VisionErrorPrefix + ErrorDetail(status1, m1) != ImagineErrorPrefix + ErrorDetail(status2, m2)
    ensures InvalidKey != ImagineErrorPrefix + ErrorDetail(status2, m2)
    ensures NoImage != VisionErrorPrefix + ErrorDetail(status1, m1)
    ensures NoImage != ImagineErrorPrefix + ErrorDetail(status2, m2)
    ensures InvalidKey != NoImage
  {
    var v := VisionErrorPrefix + ErrorDetail(status1, m1);
    var g := ImagineErrorPrefix + ErrorDetail(status2, m2);
    assert v[..|VisionErrorPrefix|] == VisionErrorPrefix;
    assert g[..|ImagineErrorPrefix|] == ImagineErrorPrefix;
    assert v[5] != g[5];
    assert g[0] == 'G';
    assert InvalidKey[0] == 'I';
    assert NoImage[0] != v[0] && NoImage[0] != g[0];
  }

  /** Method, image, category and key all pass the checks made before any upstream call. */
  predicate Admitted(req: Request, env: Env)
  {
    req.httpMethod == "POST" && Truthy(req.imageBase64) && Truthy(req.category) && Truthy(env.xaiKey)
  }

  predicate PrintifyConfigured(env: Env)
  {
    Truthy(env.printifyKey) && Truthy(env.printifyShop)
  }

  /** The upload is attempted and its reply is a parsed success. */
  predicate Published(env: Env, upload: Fetched<UploadBody>)
  {
    PrintifyConfigured(env) && upload.Ok() && upload.body.Json?
  }

  /** The data URL of the uploaded photo (`imageMimeType` defaults to image/jpeg). */
  function PhotoUrl(req: Request): (u: string)
    requires Truthy(req.imageBase64)
    ensures Between(u, "data:", ";base64," + req.imageBase64.value)
            == Some(if req.imageMimeType.Some? then req.imageMimeType.value else "image/jpeg")
  {
    var mime := if req.imageMimeType.Some? then req.imageMimeType.value else "image/jpeg";
    BetweenOfConcat("data:", mime, ";base64," + req.imageBase64.value);
    "data:" + mime + (";base64," + req.imageBase64.value)
  }

  const VisionLead := "Analyse this photo of my "
  const VisionRest :=
    " and describe the subject(s) in vivid detail for a Renaissance portrait painter."
    + " Include: species or type (if animal), age estimate, hair/fur colour, eye colour, skin tone,"
    + " distinguishing features, expression, and any notable physical characteristics."
    + " Be specific and descriptive. Maximum 120 words. No preamble."

  /** The text of the vision request: the fixed instruction around the lower-cased label. */
  function VisionInstruction(catLabel: string): (r: string)
    ensures Between(r, VisionLead, VisionRest) == Some(ToLower(catLabel))
  {
    BetweenOfConcat(VisionLead, ToLower(catLabel), VisionRest);
    VisionLead + ToLower(catLabel) + VisionRest
  }

  /** The upload's file name; `now` stands for `Date.now()`. */
  function UploadFileName(category: string, now: nat): (r: string)
    ensures Between(r, "portrait-" + category + "-", ".jpg") == Some(NatToString(now))
  {
    BetweenOfConcat("portrait-" + category + "-", NatToString(now), ".jpg");
    "portrait-" + category + "-" + NatToString(now) + ".jpg"
  }

  /** The handler. Validation failures return before any upstream call; an error
      of the vision or image step ends the request with 500 and its message; a
      failed or skipped publish leaves both Printify fields absent and still
      returns the portrait. */
  method Handle(req: Request, env: Env, now: nat,
                vision: Fetched<VisionBody>, imagine: Fetched<ImageBody>, upload: Fetched<UploadBody>)
    returns (resp: Response, calls: seq<Call>)
    ensures req.httpMethod != "POST" ==> resp == ErrorResponse(405, MethodNotAllowed) && calls == []
    ensures req.httpMethod == "POST" && !(Truthy(req.imageBase64) && Truthy(req.category)) ==>
      resp == ErrorResponse(400, MissingInput) && calls == []
    ensures req.httpMethod == "POST" && Truthy(req.imageBase64) && Truthy(req.category) && !Truthy(env.xaiKey) ==>
      resp == ErrorResponse(500, MissingKey) && calls == []
    ensures Admitted(req, env) && req.catLabel.None? ==> resp == ErrorResponse(500, LabelTypeError) && calls == []
    ensures calls != [] ==> (Admitted(req, env) && req.catLabel.Some?
      && calls[0] == VisionCall(env.xaiKey.value, PhotoUrl(req), req.catLabel.value))
    ensures Admitted(req, env) && req.catLabel.Some? && VisionStage(vision).Failure? ==>
      resp == ErrorResponse(500, VisionStage(vision).error) && |calls| == 1
    ensures |calls| >= 2 ==> (VisionStage(vision).Success?
      && calls[1] == ImagineCall(env.xaiKey.value, VisionStage(vision).value, req.category.value))
    ensures |calls| >= 2 && ImagineStage(imagine).Failure? ==> resp == ErrorResponse(500, ImagineStage(imagine).error) && |calls| == 2
    ensures resp.Portrait? <==> |calls| >= 2 && ImagineStage(imagine).Success?
    ensures Admitted(req, env) && req.catLabel.Some? ==> calls != []
    ensures Admitted(req, env) && req.catLabel.Some? && VisionStage(vision).Success? ==> |calls| >= 2
    ensures resp.Portrait? <==>
      Admitted(req, env) && req.catLabel.Some? && VisionStage(vision).Success? && ImagineStage(imagine).Success?
    ensures resp.ErrorResponse? ==> resp.status in {400, 405, 500}
    ensures resp.Portrait? ==>
      && resp.imageData == DataUrlPrefix + ImagineStage(imagine).value
      && resp.subjectDescription == VisionStage(vision).value
      && (|calls| == 3 <==> PrintifyConfigured(env))
    ensures |calls| <= 3
    ensures |calls| == 3 ==> calls[2] == UploadCall(env.printifyKey.value, UploadFileName(req.category.value, now), ImagineStage(imagine).value)
    ensures resp.Portrait? && !Published(env, upload) ==> resp.printifyImageId.None? && resp.printifyImageUrl.None?
    ensures resp.Portrait? && Published(env, upload) ==>
      && resp.printifyImageId == upload.body.value.id
      && resp.printifyImageUrl == Either(upload.body.value.previewUrl, upload.body.value.url)
  {
    calls := [];
    if req.httpMethod != "POST" {
      return ErrorResponse(405, MethodNotAllowed), calls;
    }
    if !Truthy(req.imageBase64) || !Truthy(req.category) {
      return ErrorResponse(400, MissingInput), calls;
    }
    if !Truthy(env.xaiKey) {
      return ErrorResponse(500, MissingKey), calls;
    }
    var key := env.xaiKey.value;
    var category := req.category.value;
    if req.catLabel.None? {
      return ErrorResponse(500, LabelTypeError), calls;
    }

    // Step 1: Grok Vision describes the photo.
    var visionCall := VisionCall(key, PhotoUrl(req), req.catLabel.value);
    calls := [visionCall];
    var seen := VisionStage(vision);
    if seen.Failure? {
      return ErrorResponse(500, seen.error), calls;
    }
    var subjectDescription := seen.value;

    // Step 2: Grok Imagine paints the portrait.
    var imagineCall := ImagineCall(key, subjectDescription, category);
    calls := [visionCall, imagineCall];
    var made := ImagineStage(imagine);
    if made.Failure? {
      return ErrorResponse(500, made.error), calls;
    }
    var b64 := made.value;

    // Step 3: best-effort upload to the Printify media library.
    var printifyImageId: Option<string> := None;
    var printifyImageUrl: Option<string> := None;
    if Truthy(env.printifyKey) && Truthy(env.printifyShop) {
      calls := [visionCall, imagineCall, UploadCall(env.printifyKey.value, UploadFileName(category, now), b64)];
      if upload.Ok() && upload.body.Json? {
        var pData := upload.body.value;
        printifyImageId := pData.id;
        printifyImageUrl := Either(pData.previewUrl, pData.url);
      }
    }
    resp := Portrait(DataUrlPrefix + b64, printifyImageId, printifyImageUrl, subjectDescription);
  }
}
