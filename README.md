# Generador de Carruseles — verified model

A model in Dafny of the logic behind a browser front end that asks a hosted
generative-AI service for social-media carousel text or for an edited image.

The model covers four parts of the application:

- **The template catalog** (`constants.ts`, module `Constants`). It holds five
  templates, one per `TemplateId`. The lemmas state its structural invariants:
  enum order, unique field names, options exactly on select fields, every field
  required, and the two fields of the image-editing template.
- **The generation client** (`services/geminiService.ts`, module `GeminiService`).
  - `BuildPrompt` interpolates the submitted values into per-template text. It
    refuses image editing with "Invalid template ID".
  - `GenerateCarouselContent` takes the reply as a parameter. It is one of: a
    failed call, unparseable text, or a parsed JSON value.
  - `EditImage` is the imperative part fold, proved equal to the specification
    `EditOutcome`.
- **The carousel preview** (`components/CarouselPreview.tsx`, module
  `CarouselPreview`). A class holds the slide index. The index moves with
  wrap-around under the previous/next buttons and the arrow keys.
- **The application controller** (`App.tsx`, module `App`).
  - Class `TemplateForm` holds the form's value map.
  - Class `Controller` holds the five view-state fields. Submit and reset are
    atomic transitions that receive the service's reply as a parameter.
  - A ghost log `requests` records the calls sent to the service.
  - `View` is the `renderContent` selector.

Module `CatalogConsistency` checks the catalog against the prompt builder. Each
text-generation prompt interpolates exactly the fields its template declares,
and it reads no other key.

Observations from the source, all modelled as written:

- The "model did not return an image" error is thrown inside the `try`, so it
  never reaches the caller. The caller sees the generic "No se pudo editar la
  imagen…" message instead. `NoImageErrorIsGeneric` proves this.
- Any `slides` array is accepted, including an empty one. For `{"slides": []}`
  the carousel view is chosen. The preview renders nothing for an empty list, so
  no reset button is shown either.
- With no slides, `goToPrevious`/`goToNext` move the index outside any range.
  The range invariant holds only for a non-empty slide list.
- An error with an empty message is falsy, so `renderContent` does not show it.
- `handleFormSubmit` has no loading guard. While loading, `renderContent` shows
  the spinner in place of the form (`Controller.View`: the spinner shows exactly
  when loading), so the form cannot be submitted again. The form is rendered only
  when `loading` is false, so the button's `disabled={loading}` never takes
  effect. In the model each submit is one atomic transition, so `loading` is
  false between transitions (`Controller.Valid`).

## Model

| member | source | states |
|---|---|---|
| `Constants.TemplateFor` | constants.ts:3-67 | Every template identifier has a catalog entry with that identifier. |
| `Constants.CatalogFollowsEnum` | constants.ts:3-67 | The catalog has exactly five templates, one per identifier, in enumeration order, with no identifier twice. |
| `Constants.FieldNamesAreUnique` | constants.ts:8-65 | Within each template, no two fields share a name. |
| `Constants.OptionsMatchKinds` | constants.ts:9-64 | A select field has a non-empty options list with distinct values; every other field has no options. |
| `Constants.AllFieldsRequired` | constants.ts:9-64 | Every field of every template is marked required. |
| `Constants.ImageEditingDeclaresImageAndPrompt` | constants.ts:62-65 | The image-editing template declares exactly a file field `image` and a text field `prompt`, the keys the controller reads. |
| `Strings.IncludesIffOccurs` | services/geminiService.ts:182 | `includes` holds exactly when the substring occurs at some position (both directions). |
| `Strings.IncludesInfix` | services/geminiService.ts:35-38 | A value placed between two fragments is included in the result. |
| `Strings.IncludesSuffix` | services/geminiService.ts:35-38 | Text put in front of a string keeps every substring the string includes. |
| `Strings.MissingFirstCharExcludes` | services/geminiService.ts:182 | A string lacking the first character of a pattern does not include the pattern. |
| `GeminiService.InterpolateIncludes` | services/geminiService.ts:35-100 | Every value interpolated into a template literal is included in the resulting text. |
| `GeminiService.InterpolateCarries` | services/geminiService.ts:35-100 | A text built from a list of form keys contains the submitted value of each key. |
| `GeminiService.BuildPrompt` | services/geminiService.ts:32-105 | Fails with "Invalid template ID" exactly for image editing. Otherwise the prompt is non-empty and contains, verbatim: slides, platform, topic and objective (BASIC); slides and topic (STORYTELLING); topic (EDITABLE); slides, platform, topic, objective, audience and tone (UNIVERSAL). |
| `GeminiService.PromptShowsValueOrUndefined` | services/geminiService.ts:35-100 | A field a prompt interpolates shows its submitted value verbatim. When the form has no such key, the template literal renders the text "undefined" in its place (`Lookup`). |
| `GeminiService.GenerateCarouselContent` | services/geminiService.ts:107-133 | Succeeds exactly when the template is a text template and the parsed reply is an object with an array under `slides`; the result is that array. The invalid-template error passes through unchanged; every other failure is the single generic message. |
| `GeminiService.SlidesGuardIsJsTest` | services/geminiService.ts:124 | The response check `HasSlidesArray` holds exactly when the JavaScript test `parsedData && Array.isArray(parsedData.slides)` does: the value is truthy and its `slides` property is an array. |
| `GeminiService.DecodeEncodeSlide` | services/geminiService.ts:11-29 | A slide encoded per the response schema decodes back to the same slide. |
| `GeminiService.DecodeEncodeSlides` | services/geminiService.ts:11-29 | A list of schema-encoded slides decodes back to the same list, in the same order. |
| `GeminiService.GenerateKeepsSchemaSlides` | services/geminiService.ts:121-125 | For a reply that follows the schema, the result decodes to exactly the slides sent, in order. |
| `GeminiService.GenerateDoesNotCheckSlides` | services/geminiService.ts:124-125 | Any array under `slides`, whatever its elements and whatever other members exist, is returned unchanged. |
| `GeminiService.DataUri` | services/geminiService.ts:169-170 | The image URL built from inline data is a `data:` URI, so it is non-empty and truthy. |
| `GeminiService.ReplyParts` | services/geminiService.ts:164 | The loop visits the first candidate's `parts` array whole, when it is present. There are none to visit when `candidates` or `parts` is absent. A TypeError, whose message has no "400", is thrown exactly when `candidates` is empty or its first element has no `content`. |
| `GeminiService.LastText` | services/geminiService.ts:165-168 | Any text found by the fold is truthy. |
| `GeminiService.TextPartGivesText` | services/geminiService.ts:165-168 | If any part is a text part (truthy `text`), the fold finds a text. |
| `GeminiService.NoTextPartNoText` | services/geminiService.ts:165-168 | If no part is a text part, the fold finds no text. |
| `GeminiService.LastTextPartWins` | services/geminiService.ts:165-168 | The text found is that of the last text part, whatever text parts came before. |
| `GeminiService.LastImageUrl` | services/geminiService.ts:162-172 | Any image URL found by the fold is a `data:` URI. |
| `GeminiService.ImagePartGivesUrl` | services/geminiService.ts:165-172 | If any part is an image part (no truthy text, has inline data), the fold finds an image URL. |
| `GeminiService.NoImagePartNoUrl` | services/geminiService.ts:165-172 | If no part is an image part, the fold finds no image URL. |
| `GeminiService.LastImagePartWins` | services/geminiService.ts:165-172 | The URL found is that of the last image part, whatever image parts came before. |
| `GeminiService.TextPartIsNeverImage` | services/geminiService.ts:166-171 | A part with truthy text is never treated as an image, even with inline data, and its text replaces earlier text. |
| `GeminiService.CatchMessage` | services/geminiService.ts:180-186 | The bad-request message is given exactly for a thrown Error whose message includes "400"; everything else gives the generic edit-failure message. |
| `GeminiService.EmptyInputIsRejected` | services/geminiService.ts:136-138 | An empty image, mime type or prompt (`InputsPresent` false) is refused with the missing-input message before any call. With all three present, that refusal never happens. |
| `GeminiService.EditOutcome` | services/geminiService.ts:135-187 | Fails with the missing-input message exactly when the image data, mime type or prompt is empty. On success the image URL is present and is a `data:` URI. Every failure is one of the three fixed messages. |
| `GeminiService.EditImage` | services/geminiService.ts:135-187 | The in-place fold over the reply's parts (last text wins, last image wins) gives exactly `EditOutcome`. |
| `GeminiService.NoImageErrorIsGeneric` | services/geminiService.ts:164-185 | The "no image" error and the TypeError from an empty `candidates` both reach the caller as the generic message. |
| `GeminiService.ReplyWithoutImageFails` | services/geminiService.ts:162-185 | A reply with no image part (text only, say) fails with the generic message. |
| `GeminiService.SecondImageWins` | services/geminiService.ts:165-172 | Of two inline images, the second is returned, and no text is reported. |
| `GeminiService.FailedCallMessage` | services/geminiService.ts:180-186 | A failed call gives the bad-request message when its Error message includes "400", and the generic message otherwise or for a non-Error. |
| `CarouselPreview.NextIndex` | components/CarouselPreview.tsx:39-43 | From a valid index, the next index is valid. |
| `CarouselPreview.PrevIndex` | components/CarouselPreview.tsx:33-37 | From a valid index, the previous index is valid. |
| `CarouselPreview.StepsAreModular` | components/CarouselPreview.tsx:33-43 | Within range, next is +1 modulo the slide count (last goes to 0), and previous is −1 modulo the slide count (0 goes to length − 1). |
| `CarouselPreview.NextPrevInverse` | components/CarouselPreview.tsx:33-43 | Next then previous, and previous then next, both restore the index. |
| `CarouselPreview.WalkStaysInRange` | components/CarouselPreview.tsx:31-52 | For a non-empty carousel, any sequence of key presses keeps the index in [0, length). |
| `CarouselPreview.RightPressesAdvance` | components/CarouselPreview.tsx:39-52 | Pressing ArrowRight k times moves the index to (index + k) mod length. |
| `CarouselPreview.OneActiveFlag` | components/CarouselPreview.tsx:68-69 | Exactly one slide is active when the index is in range; none otherwise. |
| `CarouselPreview.Preview.constructor` | components/CarouselPreview.tsx:30-31 | The preview starts at index 0 with the given slides. |
| `CarouselPreview.Preview.GoToPrevious` | components/CarouselPreview.tsx:33-37 | The index becomes length − 1 from 0, else index − 1; the range invariant is kept. |
| `CarouselPreview.Preview.GoToNext` | components/CarouselPreview.tsx:39-43 | The index becomes 0 from the last slide, else index + 1; the range invariant is kept. |
| `CarouselPreview.Preview.HandleKeyDown` | components/CarouselPreview.tsx:46-52 | ArrowLeft goes to the previous slide and ArrowRight to the next; any other key leaves the index unchanged. |
| `CarouselPreview.Preview.Render` | components/CarouselPreview.tsx:62-76 | Nothing is rendered for an empty slide list. Otherwise exactly one slide is active, the one at the index, and the counter shows index + 1 of length, within 1..length. |
| `App.TemplateForm.constructor` | App.tsx:39-40 | The form starts with an empty value map. |
| `App.TemplateForm.HandleChange` | App.tsx:42-52 | A file input stores its first file under its name, or leaves the map unchanged when no file was chosen. Any other control stores its text value. No other key changes. |
| `App.Stringify` | App.tsx:145-147 | The values sent to generation have the same keys; text values are unchanged and files become "[object File]". |
| `App.SubmitOutcome` | App.tsx:127-156 | Exactly one of carousel, image and error is set. A missing file or prompt for image editing gives the upload message. Text templates never set an image. They set the carousel exactly when the reply holds a `slides` array, and the carousel stored is that array, which is what `GenerateCarouselContent` returned. Otherwise they set the generic error. A stored image always has a URL. For a complete image-editing submit: a file that cannot be read stores the thrown message (`ErrorText`). Otherwise an image is stored exactly when `EditOutcome` succeeds, and it is that result; on failure, `EditOutcome`'s error is stored, which is one of the three edit messages. |
| `App.SubmitRequests` | App.tsx:136-148 | At most one request is sent. A text template sends exactly one, carrying the prompt built from the stringified form. An image edit sends exactly the uploaded file's read data and its type with the typed prompt, and only when all three are non-empty. |
| `App.ReadFailureStoresThrownMessage` | App.tsx:141-153 | A file that cannot be read ends the submit with the message of the `Error` thrown, or with "Ocurrió un error inesperado" for anything else thrown (`ErrorText`), and sends no request. |
| `App.MissingUploadSendsNothing` | App.tsx:136-140 | Image editing without a file or a prompt reports the upload message and sends no request. |
| `App.ImageRequestNeedsAllInputs` | App.tsx:136-143 | An image-editing submit sends at most one request. It sends one exactly when the file was read and the data, type and prompt are all non-empty, and that request carries exactly those three. |
| `App.ContentRequestCarriesTypedText` | App.tsx:144-148 | A text-template submit sends one prompt, and the text typed into any field the template interpolates appears in it verbatim. |
| `App.Controller.constructor` | App.tsx:121-125 | All five state fields start at their initial values, and no request has been sent. |
| `App.Controller.View` | App.tsx:166-173 | The priority is spinner > error > carousel > image > form > template selection. Each view is shown only when every higher one is absent. |
| `App.Controller.SelectTemplate` | App.tsx:172 | Choosing a template sets only the selected template, and the controller invariant `Valid` is kept. |
| `App.Controller.Back` | App.tsx:171 | Going back clears only the selected template, and `Valid` is kept. |
| `App.Controller.HandleFormSubmit` | App.tsx:127-156 | Without a selected template nothing changes. Otherwise loading is switched on and the error and both results are cleared, so only the spinner shows during the call. Then the three result fields equal `SubmitOutcome`, the requests sent are logged, loading is off whatever the outcome, and the view shows the error or the result stored. |
| `App.Controller.HandleReset` | App.tsx:158-164 | All five state fields return to their initial values, and the template selection shows. |
| `CatalogConsistency.PromptKeysAreDeclaredFields` | constants.ts:8-56 | Every key a prompt interpolates is declared by its template, and every field of a text template is interpolated. |
| `CatalogConsistency.PromptReadsOnlyDeclaredFields` | services/geminiService.ts:32-105 | Two forms that agree on a template's declared fields give the same prompt. |
| `CatalogConsistency.PromptCarriesEveryDeclaredField` | constants.ts:8-56 | The value of every declared field of a text template appears verbatim in its prompt. |

## Left out

- The remote calls (`ai.models.generateContent`), the `GoogleGenAI` client, the
  model names and the `API_KEY` check are not modelled: they are network I/O and a
  foreign library. Each reply is a parameter instead.
- The `responseSchema` is not sent anywhere. It appears only as the slide
  decode/encode pair.
- `JSON.parse` and `response.text.trim()` are not modelled. Their outcomes are the
  `Unparseable` and `ContentCallFailed` replies.
- JSON numbers are integers. Only their truthiness could matter, and it does not.
- `toBase64` and `FileReader` are browser file I/O. The result of reading a file
  is part of the uploaded-file value (`FileRead`).
- The TypeError raised for an empty `candidates` array or a missing `content` is
  represented by a fixed message without "400". The exact text depends on the
  JavaScript engine.
- `console.error` logging and the `temperature` setting are left out: the first
  is output only, the second a float.
- Asynchronous sequencing is not modelled. That includes a response arriving
  after a reset, and a second submit before the first one settles. Each submit is
  one atomic transition.
- JSX, CSS, listener registration and removal, `ImagePreview` and
  `LoadingSpinner` are presentation only.
- The prompt prose is not modelled. Each prompt is fixed opaque fragments around
  the interpolated values. Only which values appear, and in what order, is
  faithful.
- `App.ImageOf`: a text value stored under `image` counts as no file, because the
  form's file input only ever stores a file there. Likewise, a file stored under
  `prompt` counts as no prompt (`App.PromptOf`).
- `App.Controller.SelectTemplate` accepts any template. In the source, only
  catalog entries are offered.
