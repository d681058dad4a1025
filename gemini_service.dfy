/** The generation client (services/geminiService.ts): prompt building, the
    structured-content call's response check, and the image-edit call's part fold
    and error mapping. The remote service is not modelled: each operation takes
    the service's reply as a parameter. */
module GeminiService {
  import opened Wrappers
  import opened Types
  import opened Strings

  /** Submitted form values after the controller turned each of them into a string. */
  type FormData = map<string, string>

  /** `${formData.key}` in a template literal: the value, or the text "undefined"
      when the key was never submitted. */
  function Lookup(form: FormData, key: string): string
  {
    if key in form then form[key] else "undefined"
  }

  // ---------------------------------------------------------------------------
  // User-facing messages
  // ---------------------------------------------------------------------------

  const InvalidTemplateMsg := "Invalid template ID"
  const GenerateFailedMsg := "No se pudo generar el contenido. Por favor, inténtalo de nuevo."
  const MissingInputMsg := "Se requieren una imagen, su tipo y un prompt para la edición."
  // Written in short pieces so that the verifier can look inside it.
  const NoImageMsg := "El modelo no " + "devolvi" + ['ó'] + " una imagen. " + "Intenta con un " + "prompt diferente."
  const BadRequestMsg := "Hubo un problema con la solicitud. Asegúrate de que la imagen sea válida y el prompt sea claro."
  const EditFailedMsg := "No se pudo editar la imagen. Por favor, inténtalo de nuevo."

  // ---------------------------------------------------------------------------
  // Prompt building
  // ---------------------------------------------------------------------------

  /** A template literal: fixed fragments with one interpolated value between each
      two neighbouring fragments. */
  function Interpolate(fragments: seq<string>, values: seq<string>): string
    requires |fragments| == |values| + 1
  {
    if values == [] then fragments[0]
    else fragments[0] + values[0] + Interpolate(fragments[1..], values[1..])
  }

  /** The submitted values of `keys`, in order. */
  function Values(form: FormData, keys: seq<string>): (vs: seq<string>)
    ensures |vs| == |keys|
    ensures forall i :: 0 <= i < |keys| ==> vs[i] == Lookup(form, keys[i])
  {
    seq(|keys|, i requires 0 <= i < |keys| => Lookup(form, keys[i]))
  }

  /** Every interpolated value can be found again in the text. */
  lemma {:induction false} InterpolateIncludes(fragments: seq<string>, values: seq<string>, i: nat)
    requires |fragments| == |values| + 1 && i < |values|
    ensures Includes(Interpolate(fragments, values), values[i])
    decreases |values|
  {
    var rest := Interpolate(fragments[1..], values[1..]);
    if i == 0 {
      IncludesInfix(fragments[0], values[0], rest);
    } else {
      InterpolateIncludes(fragments[1..], values[1..], i - 1);
      IncludesSuffix(fragments[0] + values[0], rest, values[i]);
    }
  }

  /** The prompt text carries the submitted value of every key in `keys`, verbatim. */
  ghost predicate Carries(prompt: string, form: FormData, keys: seq<string>)
  {
    forall k :: k in keys ==> Includes(prompt, Lookup(form, k))
  }

  /** A prompt built from `keys` carries the value of each of them. */
  lemma InterpolateCarries(fragments: seq<string>, form: FormData, keys: seq<string>)
    requires |fragments| == |keys| + 1
    ensures Carries(Interpolate(fragments, Values(form, keys)), form, keys)
  {
    var vs := Values(form, keys);
    forall k | k in keys ensures Includes(Interpolate(fragments, vs), Lookup(form, k)) {
      var i :| 0 <= i < |keys| && keys[i] == k;
      InterpolateIncludes(fragments, vs, i);
    }
  }

  /** The form keys each prompt interpolates, in order of appearance. */
  function PromptKeys(id: TemplateId): seq<string>
  {
    match id
    case Basic => ["slides", "platform", "topic", "objective"]
    case Storytelling => ["slides", "topic"]
    case Editable => ["topic"]
    case Universal => ["slides", "platform", "topic", "objective", "audience", "tone"]
    case ImageEditing => []
  }

  // The fixed prose of each prompt is kept only as opaque fragments: the text
  // around each interpolated value, and one constant for each instruction block.

  const BasicFragments := [
    "\n        Genera un carrusel de ",
    " diapositivas para ",
    ".\n        Tema: ",
    "\n        Objetivo: ",
    "\n\n        Sigue estrictamente esta estructura: [portada, contexto, dolor, solución, desarrollo, CTA]\n      "]

  const StorytellingFragments := [
    "\n        Crea un carrusel narrativo de ",
    " diapositivas sobre ",
    ".\n        Usa el patrón \"Curiosidad -> Historia -> Solución -> Acción\". [guía por diapositiva]\n      "]

  const EditableFragments := [
    "\n        Genera una plantilla de carrusel genérica y editable sobre el tema de \"",
    "\". El objetivo es crear un esqueleto que un usuario pueda adaptar fácilmente. [estructura de plantilla]\n      "]

  const UniversalFragments := [
    "\n        Quiero que generes un carrusel de ",
    " diapositivas para ",
    ".\n\n        🎯 Tema: ",
    "\n        🎯 Objetivo: ",
    ".\n        🎯 Público: ",
    ".\n\n        Sigue estrictamente esta estructura esperada: [gancho, contexto, dolor, solución, pasos, CTA; formato de salida]\n\n        Usa un tono ",
    " según el objetivo.\n      "]

  /** `buildPrompt`: one instruction per text-generation template, carrying the
      values it names verbatim; any other identifier (that is, image editing) is
      refused with "Invalid template ID". */
  function BuildPrompt(id: TemplateId, form: FormData): (r: Result<string, string>)
    ensures r.Err? <==> id == ImageEditing
    ensures r.Err? ==> r.error == InvalidTemplateMsg
    ensures r.Ok? ==> |r.value| > 0
    ensures id == Basic ==> Carries(r.value, form, ["slides", "platform", "topic", "objective"])
    ensures id == Storytelling ==> Carries(r.value, form, ["slides", "topic"])
    ensures id == Editable ==> Carries(r.value, form, ["topic"])
    ensures id == Universal ==>
      Carries(r.value, form, ["slides", "platform", "topic", "objective", "audience", "tone"])
  {
    match id
    case Basic =>
      InterpolateCarries(BasicFragments, form, PromptKeys(Basic));
      Ok(Interpolate(BasicFragments, Values(form, PromptKeys(Basic))))
    case Storytelling =>
      InterpolateCarries(StorytellingFragments, form, PromptKeys(Storytelling));
      Ok(Interpolate(StorytellingFragments, Values(form, PromptKeys(Storytelling))))
    case Editable =>
      InterpolateCarries(EditableFragments, form, PromptKeys(Editable));
      Ok(Interpolate(EditableFragments, Values(form, PromptKeys(Editable))))
    case Universal =>
      InterpolateCarries(UniversalFragments, form, PromptKeys(Universal));
      Ok(Interpolate(UniversalFragments, Values(form, PromptKeys(Universal))))
    case ImageEditing =>
      Err(InvalidTemplateMsg)
  }

  /** A field a prompt interpolates shows its submitted value, or the text
      "undefined" when the form has no such key. */
  lemma PromptShowsValueOrUndefined(id: TemplateId, form: FormData, key: string)
    requires id != ImageEditing && key in PromptKeys(id)
    ensures BuildPrompt(id, form).Ok?
    ensures key in form ==> Includes(BuildPrompt(id, form).value, form[key])
    ensures key !in form ==> Includes(BuildPrompt(id, form).value, "undefined")
  {
    assert Includes(BuildPrompt(id, form).value, Lookup(form, key));
  }

  // ---------------------------------------------------------------------------
  // Structured content generation
  // ---------------------------------------------------------------------------

  /** A value produced by `JSON.parse`. Numbers are kept as integers: only their
      truthiness could matter here, and it does not (see SlidesGuardIsJsTest). */
  datatype Json =
    | JNull
    | JBool(b: bool)
    | JNumber(n: int)
    | JString(s: string)
    | JArray(items: seq<Json>)
    | JObject(members: map<string, Json>)

  /** What the content-generation call yields: a failed call (network, service or
      a missing response text), a text `JSON.parse` rejects, or a parsed value. */
  datatype ContentResponse = ContentCallFailed | Unparseable | Parsed(value: Json)

  /** `parsedData && Array.isArray(parsedData.slides)`: only an object can carry a
      `slides` member (for `null`, `false`, `0` and `""` the guard is false already,
      and other primitives and arrays have no such property). */
  predicate HasSlidesArray(v: Json)
  {
    v.JObject? && "slides" in v.members && v.members["slides"].JArray?
  }

  /** JavaScript truthiness of a parsed value. */
  predicate JsTruthy(v: Json)
  {
    match v
    case JNull => false
    case JBool(b) => b
    case JNumber(n) => n != 0
    case JString(s) => s != ""
    case JArray(_) => true
    case JObject(_) => true
  }

  /** `v[key]` on a parsed value: an own member of an object; `undefined` (None) for
      every other value, none of which has a `slides` property. */
  function Member(v: Json, key: string): Option<Json>
  {
    if v.JObject? && key in v.members then Some(v.members[key]) else None
  }

  /** The guard is the JavaScript test `parsedData && Array.isArray(parsedData.slides)`
      evaluated on the parsed value. */
  lemma SlidesGuardIsJsTest(v: Json)
    ensures HasSlidesArray(v) <==>
      JsTruthy(v) && Member(v, "slides").Some? && Member(v, "slides").value.JArray?
  {
  }

  /** `generateCarouselContent`: the prompt is built outside the `try`, so an invalid
      template identifier reaches the caller as it is; inside it, any failure and any
      reply that is not an object with an array under `slides` collapse to one generic
      message. The array is returned as parsed: same elements, same order, unchecked. */
  function GenerateCarouselContent(id: TemplateId, form: FormData, response: ContentResponse)
    : (r: Result<seq<Json>, string>)
    ensures r.Ok? ==> id != ImageEditing && response.Parsed? && HasSlidesArray(response.value)
                      && response.value.members["slides"] == JArray(r.value)
    ensures r.Err? ==> id == ImageEditing || !response.Parsed? || !HasSlidesArray(response.value)
    ensures r.Err? ==> r.error == if id == ImageEditing then InvalidTemplateMsg else GenerateFailedMsg
  {
    match BuildPrompt(id, form)
    case Err(e) => Err(e)
    case Ok(_) =>
      if response.Parsed? && HasSlidesArray(response.value) then
        Ok(response.value.members["slides"].items)
      else
        Err(GenerateFailedMsg)
  }

  /** The requested response schema, for one slide: `title`, `content` and
      `visualSuggestion` are required strings, `emojis` an optional string. */
  function DecodeSlide(j: Json): Option<SlideContent>
  {
    if j.JObject? && StringMember(j, "title").Some? && StringMember(j, "content").Some?
       && StringMember(j, "visualSuggestion").Some?
       && ("emojis" in j.members ==> StringMember(j, "emojis").Some?)
    then
      Some(SlideContent(StringMember(j, "title").value, StringMember(j, "content").value,
        StringMember(j, "visualSuggestion").value,
        if "emojis" in j.members then StringMember(j, "emojis").value else ""))
    else None
  }

  function StringMember(j: Json, key: string): Option<string>
    requires j.JObject?
  {
    if key in j.members && j.members[key].JString? then Some(j.members[key].s) else None
  }

  /** A slide as the service is asked to send it. */
  function EncodeSlide(slide: SlideContent): Json
  {
    JObject(map["title" := JString(slide.title), "content" := JString(slide.content),
      "visualSuggestion" := JString(slide.visualSuggestion), "emojis" := JString(slide.emojis)])
  }

  function EncodeSlides(slides: seq<SlideContent>): (js: seq<Json>)
    ensures |js| == |slides|
  {
    if slides == [] then [] else [EncodeSlide(slides[0])] + EncodeSlides(slides[1..])
  }

  /** Every element conforms to the slide schema. */
  function DecodeSlides(js: seq<Json>): Option<seq<SlideContent>>
  {
    if js == [] then Some([])
    else match (DecodeSlide(js[0]), DecodeSlides(js[1..]))
      case (Some(s), Some(rest)) => Some([s] + rest)
      case _ => None
  }

  /** The schema encoding of a slide decodes back to the same slide. */
  lemma DecodeEncodeSlide(slide: SlideContent)
    ensures DecodeSlide(EncodeSlide(slide)) == Some(slide)
  {
  }

  /** The schema encoding of a slide list decodes back to the same list, in order. */
  lemma {:induction false} DecodeEncodeSlides(slides: seq<SlideContent>)
    ensures DecodeSlides(EncodeSlides(slides)) == Some(slides)
  {
    if slides != [] {
      DecodeEncodeSlide(slides[0]);
      assert EncodeSlides(slides)[1..] == EncodeSlides(slides[1..]);
      DecodeEncodeSlides(slides[1..]);
      assert [slides[0]] + slides[1..] == slides;
    }
  }

  /** A reply that follows the schema yields exactly its slides, in the order sent. */
  lemma GenerateKeepsSchemaSlides(id: TemplateId, form: FormData, slides: seq<SlideContent>)
    requires id != ImageEditing
    ensures var r := GenerateCarouselContent(id, form,
              Parsed(JObject(map["slides" := JArray(EncodeSlides(slides))])));
            r.Ok? && DecodeSlides(r.value) == Some(slides)
  {
    DecodeEncodeSlides(slides);
  }

  /** No element of the `slides` array is checked: whatever it holds is returned. */
  lemma GenerateDoesNotCheckSlides(id: TemplateId, form: FormData, items: seq<Json>, others: map<string, Json>)
    requires id != ImageEditing
    ensures GenerateCarouselContent(id, form, Parsed(JObject(others["slides" := JArray(items)]))) == Ok(items)
  {
  }

  // ---------------------------------------------------------------------------
  // Image editing
  // ---------------------------------------------------------------------------

  datatype InlineData = InlineData(mimeType: string, data: string)

  /** One part of the reply's first candidate; either member may be absent. */
  datatype Part = Part(text: Option<string>, inlineData: Option<InlineData>)

  datatype Content = Content(parts: Option<seq<Part>>)

  datatype Candidate = Candidate(content: Option<Content>)

  /** A thrown value: an `Error` with its message, or anything else. */
  datatype Thrown = ErrorWith(message: string) | NonError

  /** What the image-edit call yields: a thrown failure, or a reply whose
      `candidates` member may be absent. */
  datatype ImageResponse = ImageCallFailed(thrown: Thrown) | ImageReply(candidates: Option<seq<Candidate>>)

  /** The `TypeError` raised when `candidates` is an empty array or its first
      element has no `content`; its message has no "400" in it. */
  const PropertyOfUndefined: Thrown := ErrorWith("Cannot read " + "properties of " + "undefined")

  /** `response.candidates && response.candidates[0].content.parts`: the parts the
      loop visits (none when either guard is falsy), or the `TypeError` thrown. */
  function ReplyParts(candidates: Option<seq<Candidate>>): (r: Result<seq<Part>, Thrown>)
    ensures r.Err? <==> candidates.Some? && (candidates.value == [] || candidates.value[0].content.None?)
    ensures r.Err? ==> r.error == PropertyOfUndefined
    ensures r.Ok? && r.value != [] ==>
      candidates.Some? && candidates.value[0].content.Some?
      && candidates.value[0].content.value.parts == Some(r.value)
    // A present `parts` array of the first candidate is visited whole.
    ensures (candidates.Some? && candidates.value != [] && candidates.value[0].content.Some?
             && candidates.value[0].content.value.parts.Some?) ==>
      r == Ok(candidates.value[0].content.value.parts.value)
    // No candidates, or a first candidate without parts: nothing to visit.
    ensures candidates.None? ==> r == Ok([])
    ensures (candidates.Some? && candidates.value != [] && candidates.value[0].content.Some?
             && candidates.value[0].content.value.parts.None?) ==> r == Ok([])
  {
    match candidates
    case None => Ok([])
    case Some(cs) =>
      if cs == [] || cs[0].content.None? then Err(PropertyOfUndefined)
      else match cs[0].content.value.parts
        case None => Ok([])
        case Some(ps) => Ok(ps)
  }

  /** JavaScript truthiness of an optional string: present and non-empty. */
  predicate Truthy(s: Option<string>)
  {
    s.Some? && s.value != ""
  }

  /** The loop takes a part as text when its `text` is truthy ... */
  predicate IsTextPart(p: Part)
  {
    Truthy(p.text)
  }

  /** ... and as an image only otherwise, when it carries inline data. */
  predicate IsImagePart(p: Part)
  {
    !Truthy(p.text) && p.inlineData.Some?
  }

  /** The data URI built from an inline image. */
  function DataUri(d: InlineData): (uri: string)
    ensures "data:" <= uri && |uri| > 0
  {
    "data:" + d.mimeType + ";base64," + d.data
  }

  /** The text of the last text part, if any. */
  function LastText(parts: seq<Part>): (text: Option<string>)
    ensures text.Some? ==> Truthy(text)
  {
    if parts == [] then None
    else if IsTextPart(parts[|parts| - 1]) then parts[|parts| - 1].text
    else LastText(parts[..|parts| - 1])
  }

  /** The data URI of the last image part, if any. */
  function LastImageUrl(parts: seq<Part>): (url: Option<string>)
    ensures url.Some? ==> "data:" <= url.value
  {
    if parts == [] then None
    else if IsImagePart(parts[|parts| - 1]) then Some(DataUri(parts[|parts| - 1].inlineData.value))
    else LastImageUrl(parts[..|parts| - 1])
  }

  /** An image URL is found when some part is an image part ... */
  lemma {:induction false} ImagePartGivesUrl(parts: seq<Part>, i: nat)
    requires i < |parts| && IsImagePart(parts[i])
    ensures LastImageUrl(parts).Some?
  {
    var n := |parts| - 1;
    if i < n && !IsImagePart(parts[n]) {
      assert parts[..n][i] == parts[i];
      ImagePartGivesUrl(parts[..n], i);
    }
  }

  /** ... and only then. */
  lemma {:induction false} NoImagePartNoUrl(parts: seq<Part>)
    requires forall i :: 0 <= i < |parts| ==> !IsImagePart(parts[i])
    ensures LastImageUrl(parts) == None
  {
    if parts != [] {
      var n := |parts| - 1;
      assert forall i :: 0 <= i < n ==> parts[..n][i] == parts[i];
      NoImagePartNoUrl(parts[..n]);
    }
  }

  /** The URL is that of the last image part: an image part with no image part
      after it decides the result, whatever came before it. */
  lemma {:induction false} LastImagePartWins(parts: seq<Part>, i: nat)
    requires i < |parts| && IsImagePart(parts[i])
    requires forall j :: i < j < |parts| ==> !IsImagePart(parts[j])
    ensures LastImageUrl(parts) == Some(DataUri(parts[i].inlineData.value))
  {
    var n := |parts| - 1;
    if i < n {
      assert forall j :: i < j < n ==> parts[..n][j] == parts[j];
      assert parts[..n][i] == parts[i];
      LastImagePartWins(parts[..n], i);
    }
  }

  /** Some text is found when some part is a text part ... */
  lemma {:induction false} TextPartGivesText(parts: seq<Part>, i: nat)
    requires i < |parts| && IsTextPart(parts[i])
    ensures LastText(parts).Some?
  {
    var n := |parts| - 1;
    if i < n && !IsTextPart(parts[n]) {
      assert parts[..n][i] == parts[i];
      TextPartGivesText(parts[..n], i);
    }
  }

  /** ... and only then. */
  lemma {:induction false} NoTextPartNoText(parts: seq<Part>)
    requires forall i :: 0 <= i < |parts| ==> !IsTextPart(parts[i])
    ensures LastText(parts) == None
  {
    if parts != [] {
      var n := |parts| - 1;
      assert forall i :: 0 <= i < n ==> parts[..n][i] == parts[i];
      NoTextPartNoText(parts[..n]);
    }
  }

  /** The text is that of the last text part: a text part with no text part after
      it decides the result, whatever came before it. */
  lemma {:induction false} LastTextPartWins(parts: seq<Part>, i: nat)
    requires i < |parts| && IsTextPart(parts[i])
    requires forall j :: i < j < |parts| ==> !IsTextPart(parts[j])
    ensures LastText(parts) == parts[i].text
  {
    var n := |parts| - 1;
    if i < n {
      assert forall j :: i < j < n ==> parts[..n][j] == parts[j];
      assert parts[..n][i] == parts[i];
      LastTextPartWins(parts[..n], i);
    }
  }

  /** A part with truthy text is never taken as an image, even when it carries
      inline data; it replaces the text found so far. */
  lemma TextPartIsNeverImage(parts: seq<Part>, p: Part)
    requires IsTextPart(p)
    ensures LastImageUrl(parts + [p]) == LastImageUrl(parts)
    ensures LastText(parts + [p]) == p.text
  {
    assert (parts + [p])[..|parts|] == parts;
  }

  /** `catch`: a thrown `Error` whose message mentions "400" reads as a bad request;
      everything else as the generic failure. */
  function CatchMessage(t: Thrown): (msg: string)
    ensures msg == BadRequestMsg <==> t.ErrorWith? && Includes(t.message, "400")
    ensures msg != BadRequestMsg ==> msg == EditFailedMsg
  {
    if t.ErrorWith? && Includes(t.message, "400") then BadRequestMsg else EditFailedMsg
  }

  /** All three inputs are non-empty strings (the guard before the `try`). */
  predicate InputsPresent(base64ImageData: string, mimeType: string, prompt: string)
  {
    base64ImageData != "" && mimeType != "" && prompt != ""
  }

  /** Each of the three inputs, when empty, is refused before any call is made; with
      all three present the refusal never happens. */
  lemma EmptyInputIsRejected(base64ImageData: string, mimeType: string, prompt: string, response: ImageResponse)
    ensures EditOutcome("", mimeType, prompt, response) == Err(MissingInputMsg)
    ensures EditOutcome(base64ImageData, "", prompt, response) == Err(MissingInputMsg)
    ensures EditOutcome(base64ImageData, mimeType, "", response) == Err(MissingInputMsg)
    ensures base64ImageData != "" && mimeType != "" && prompt != "" ==>
      EditOutcome(base64ImageData, mimeType, prompt, response) != Err(MissingInputMsg)
  {
  }

  /** What `editImage` resolves or rejects with, as a function of its inputs and of
      the service's reply. */
  function EditOutcome(base64ImageData: string, mimeType: string, prompt: string, response: ImageResponse)
    : (r: Result<ImageEditResult, string>)
    ensures !InputsPresent(base64ImageData, mimeType, prompt) <==> r == Err(MissingInputMsg)
    ensures r.Ok? ==> r.value.imageUrl.Some? && "data:" <= r.value.imageUrl.value
    ensures r.Err? ==> r.error in {MissingInputMsg, BadRequestMsg, EditFailedMsg}
  {
    if !InputsPresent(base64ImageData, mimeType, prompt) then Err(MissingInputMsg)
    else match response
      case ImageCallFailed(thrown) => Err(CatchMessage(thrown))
      case ImageReply(candidates) =>
        match ReplyParts(candidates)
        case Err(thrown) => Err(CatchMessage(thrown))
        case Ok(parts) =>
          var result := ImageEditResult(LastImageUrl(parts), LastText(parts));
          if !Truthy(result.imageUrl) then Err(CatchMessage(ErrorWith(NoImageMsg))) else Ok(result)
  }

  /** `editImage`: checks its inputs, then folds over the reply's parts updating the
      result in place, and requires an image at the end. */
  method EditImage(base64ImageData: string, mimeType: string, prompt: string, response: ImageResponse)
    returns (r: Result<ImageEditResult, string>)
    ensures r == EditOutcome(base64ImageData, mimeType, prompt, response)
  {
    if !InputsPresent(base64ImageData, mimeType, prompt) {
      return Err(MissingInputMsg);
    }
    match response {
      case ImageCallFailed(thrown) =>
        return Err(CatchMessage(thrown));
      case ImageReply(candidates) =>
        var found := ReplyParts(candidates);
        if found.Err? {
          return Err(CatchMessage(found.error));
        }
        var parts := found.value;
        var result := ImageEditResult(None, None);
        for i := 0 to |parts|
          invariant result.text == LastText(parts[..i])
          invariant result.imageUrl == LastImageUrl(parts[..i])
        {
          var part := parts[i];
          if Truthy(part.text) {
            result := result.(text := part.text);
          } else if part.inlineData.Some? {
            result := result.(imageUrl := Some(DataUri(part.inlineData.value)));
          }
          assert parts[..i + 1][..i] == parts[..i];
        }
        assert parts[..|parts|] == parts;
        if !Truthy(result.imageUrl) {
          return Err(CatchMessage(ErrorWith(NoImageMsg)));
        }
        return Ok(result);
    }
  }

  /** The "no image" error is thrown inside the `try`, so the caller sees the generic
      message instead of it. */
  lemma NoImageErrorIsGeneric()
    ensures CatchMessage(ErrorWith(NoImageMsg)) == EditFailedMsg
    ensures CatchMessage(PropertyOfUndefined) == EditFailedMsg
  {
    MissingFirstCharExcludes(NoImageMsg, "400");
    MissingFirstCharExcludes(PropertyOfUndefined.message, "400");
  }

  /** The reply of a single candidate carrying `parts`. */
  function PartsReply(parts: seq<Part>): ImageResponse
  {
    ImageReply(Some([Candidate(Some(Content(Some(parts))))]))
  }

  /** A reply without any image part (only text, say) is a failure, reported with
      the generic message. */
  lemma {:induction false} ReplyWithoutImageFails(
    base64ImageData: string, mimeType: string, prompt: string, parts: seq<Part>)
    requires InputsPresent(base64ImageData, mimeType, prompt)
    requires forall i :: 0 <= i < |parts| ==> !IsImagePart(parts[i])
    ensures EditOutcome(base64ImageData, mimeType, prompt, PartsReply(parts)) == Err(EditFailedMsg)
  {
    NoImagePartNoUrl(parts);
    NoImageErrorIsGeneric();
  }

  /** Of two inline images the second is returned. */
  lemma SecondImageWins(
    base64ImageData: string, mimeType: string, prompt: string, first: InlineData, second: InlineData)
    requires InputsPresent(base64ImageData, mimeType, prompt)
    ensures EditOutcome(base64ImageData, mimeType, prompt,
              PartsReply([Part(None, Some(first)), Part(None, Some(second))]))
            == Ok(ImageEditResult(Some(DataUri(second)), None))
  {
    var parts := [Part(None, Some(first)), Part(None, Some(second))];
    assert ReplyParts(PartsReply(parts).candidates) == Ok(parts);
    assert parts[..1] == [Part(None, Some(first))] && parts[..1][..0] == [];
    assert LastText(parts[..1]) == None;
    assert LastText(parts) == None;
    assert LastImageUrl(parts) == Some(DataUri(second));
  }

  /** A failed call is reported by whether its error message mentions "400". */
  lemma FailedCallMessage(base64ImageData: string, mimeType: string, prompt: string, message: string)
    requires InputsPresent(base64ImageData, mimeType, prompt)
    ensures EditOutcome(base64ImageData, mimeType, prompt, ImageCallFailed(ErrorWith(message)))
            == Err(if Includes(message, "400") then BadRequestMsg else EditFailedMsg)
    ensures EditOutcome(base64ImageData, mimeType, prompt, ImageCallFailed(NonError)) == Err(EditFailedMsg)
  {
  }
}
