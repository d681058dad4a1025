/** The application controller (App.tsx): the form's value map, the five view-state
    fields, the submit and reset transitions, and the choice of the one view shown.
    Each submit is one atomic transition that receives the remote service's reply as
    a parameter. */
module App {
  import opened Wrappers
  import opened Types
  import opened Strings
  import opened GeminiService

  // ---------------------------------------------------------------------------
  // Form values (TemplateForm)
  // ---------------------------------------------------------------------------

  /** The outcome of reading an uploaded file as base64 (`toBase64`). */
  datatype FileRead = Read(base64: string) | ReadFailed(thrown: Thrown)

  /** A chosen file: its declared media type (`file.type`) and what reading it yields. */
  datatype UploadedFile = UploadedFile(mimeType: string, read: FileRead)

  /** A form value: the text of an input or select, or a chosen file. */
  datatype FormValue = TextValue(text: string) | FileValue(file: UploadedFile)

  type FormValues = map<string, FormValue>

  /** The target of a change event: control name, value, input type and chosen files. */
  datatype ChangeEvent = ChangeEvent(name: string, value: string, inputType: string, files: seq<UploadedFile>)

  class TemplateForm {
    const template: Template
    var formData: FormValues

    constructor (template: Template)
      ensures this.template == template && formData == map[]
    {
      this.template := template;
      formData := map[];
    }

    /** `handleChange`: a file input stores its first chosen file (and nothing when no
        file was chosen); any other control stores its text value. */
    method HandleChange(e: ChangeEvent)
      modifies this
      ensures e.inputType == "file" && |e.files| == 0 ==> formData == old(formData)
      ensures e.inputType == "file" && |e.files| > 0 ==> formData == old(formData)[e.name := FileValue(e.files[0])]
      ensures e.inputType != "file" ==> formData == old(formData)[e.name := TextValue(e.value)]
      ensures forall k :: k != e.name ==>
        (k in formData <==> k in old(formData)) && (k in formData ==> formData[k] == old(formData)[k])
    {
      if e.inputType == "file" {
        if |e.files| > 0 {
          formData := formData[e.name := FileValue(e.files[0])];
        }
      } else {
        formData := formData[e.name := TextValue(e.value)];
      }
    }
  }

  /** `String(value)`: text stays as it is; a `File` object reads "[object File]". */
  function AsString(v: FormValue): string
  {
    match v
    case TextValue(s) => s
    case FileValue(_) => "[object File]"
  }

  /** The values sent to content generation: the same keys, every value a string,
      text values unchanged. */
  function Stringify(form: FormValues): (m: FormData)
    ensures m.Keys == form.Keys
    ensures forall k :: k in form && form[k].TextValue? ==> m[k] == form[k].text
    ensures forall k :: k in form && form[k].FileValue? ==> m[k] == "[object File]"
  {
    map k | k in form :: AsString(form[k])
  }

  /** `formData.image` when it holds a file (the form's file input stores nothing else). */
  function ImageOf(form: FormValues): Option<UploadedFile>
  {
    if "image" in form && form["image"].FileValue? then Some(form["image"].file) else None
  }

  /** `formData.prompt` as text; a missing prompt reads as the falsy empty string. */
  function PromptOf(form: FormValues): string
  {
    if "prompt" in form && form["prompt"].TextValue? then form["prompt"].text else ""
  }

  // ---------------------------------------------------------------------------
  // Submitting
  // ---------------------------------------------------------------------------

  const UploadPromptMsg := "Por favor, sube una imagen y escribe un prompt."
  const UnexpectedMsg := "Ocurrió un error inesperado"

  /** `err instanceof Error ? err.message : 'Ocurrió un error inesperado'`. */
  function ErrorText(t: Thrown): string
  {
    match t
    case ErrorWith(m) => m
    case NonError => UnexpectedMsg
  }

  /** A request issued to the remote service. */
  datatype Request =
    | ContentRequest(prompt: string)
    | ImageRequest(base64ImageData: string, mimeType: string, prompt: string)

  /** The three result fields a finished submit leaves behind. */
  datatype Outcome = Outcome(carouselData: Option<seq<Json>>, imageResult: Option<ImageEditResult>, error: Option<string>)

  function Failed(message: string): Outcome
  {
    Outcome(None, None, Some(message))
  }

  /** Exactly one of the three result fields is set. */
  predicate Settled(o: Outcome)
  {
    || (o.carouselData.Some? && o.imageResult.None? && o.error.None?)
    || (o.carouselData.None? && o.imageResult.Some? && o.error.None?)
    || (o.carouselData.None? && o.imageResult.None? && o.error.Some?)
  }

  /** What a submit for template `id` leaves in the result fields, given the values
      submitted and the reply of whichever remote call it makes. */
  function SubmitOutcome(id: TemplateId, form: FormValues, content: ContentResponse, image: ImageResponse)
    : (o: Outcome)
    ensures Settled(o)
    ensures id == ImageEditing && (ImageOf(form).None? || PromptOf(form) == "") ==> o == Failed(UploadPromptMsg)
    ensures id != ImageEditing ==> o.imageResult.None?
    ensures id != ImageEditing ==> (o.carouselData.Some? <==> content.Parsed? && HasSlidesArray(content.value))
    ensures id != ImageEditing && o.error.Some? ==> o.error.value == GenerateFailedMsg
    // The carousel stored is the array the generation call returned, as parsed.
    ensures id != ImageEditing && o.carouselData.Some? ==>
      GenerateCarouselContent(id, Stringify(form), content) == Ok(o.carouselData.value)
      && content.value.members["slides"] == JArray(o.carouselData.value)
    ensures o.carouselData.Some? ==> id != ImageEditing
    ensures o.imageResult.Some? ==> id == ImageEditing && o.imageResult.value.imageUrl.Some?
    // A complete image-editing submit whose file could not be read stores what was thrown.
    ensures id == ImageEditing && ImageOf(form).Some? && PromptOf(form) != ""
            && ImageOf(form).value.read.ReadFailed? ==>
      o == Failed(ErrorText(ImageOf(form).value.read.thrown))
    // Otherwise it stores the edit's result, or the edit's error message.
    ensures id == ImageEditing && ImageOf(form).Some? && PromptOf(form) != ""
            && ImageOf(form).value.read.Read? ==>
      var edit := EditOutcome(ImageOf(form).value.read.base64, ImageOf(form).value.mimeType, PromptOf(form), image);
      && (o.imageResult.Some? <==> edit.Ok?)
      && (edit.Ok? ==> o.imageResult == Some(edit.value))
      && (edit.Err? ==> o == Failed(edit.error))
      && (o.error.Some? ==> o.error.value in {MissingInputMsg, BadRequestMsg, EditFailedMsg})
  {
    if id == ImageEditing then
      match ImageOf(form)
      case None => Failed(UploadPromptMsg)
      case Some(file) =>
        if PromptOf(form) == "" then Failed(UploadPromptMsg)
        else match file.read
          case ReadFailed(thrown) => Failed(ErrorText(thrown))
          case Read(base64) =>
            match EditOutcome(base64, file.mimeType, PromptOf(form), image)
            case Ok(result) => Outcome(None, Some(result), None)
            case Err(message) => Failed(message)
    else
      match GenerateCarouselContent(id, Stringify(form), content)
      case Ok(slides) => Outcome(Some(slides), None, None)
      case Err(message) => Failed(message)
  }

  /** The requests a submit for template `id` sends to the remote service. */
  function SubmitRequests(id: TemplateId, form: FormValues): (rs: seq<Request>)
    ensures |rs| <= 1
    ensures id != ImageEditing ==>
      |rs| == 1 && rs[0] == ContentRequest(BuildPrompt(id, Stringify(form)).value)
    ensures id == ImageEditing && |rs| == 1 ==>
      && ImageOf(form).Some? && ImageOf(form).value.read.Read?
      && rs[0] == ImageRequest(ImageOf(form).value.read.base64, ImageOf(form).value.mimeType, PromptOf(form))
      && InputsPresent(rs[0].base64ImageData, rs[0].mimeType, rs[0].prompt)
  {
    if id == ImageEditing then
      match ImageOf(form)
      case None => []
      case Some(file) =>
        match file.read
        case Read(base64) =>
          if PromptOf(form) != "" && InputsPresent(base64, file.mimeType, PromptOf(form))
          then [ImageRequest(base64, file.mimeType, PromptOf(form))]
          else []
        case ReadFailed(_) => []
    else
      match BuildPrompt(id, Stringify(form))
      case Ok(prompt) => [ContentRequest(prompt)]
      case Err(_) => []
  }

  /** A file that could not be read ends the submit with the message of the `Error`
      thrown, or with the fixed "unexpected error" text for anything else thrown. */
  lemma ReadFailureStoresThrownMessage(form: FormValues, content: ContentResponse, image: ImageResponse)
    requires ImageOf(form).Some? && ImageOf(form).value.read.ReadFailed? && PromptOf(form) != ""
    ensures ImageOf(form).value.read.thrown.ErrorWith? ==>
      SubmitOutcome(ImageEditing, form, content, image) == Failed(ImageOf(form).value.read.thrown.message)
    ensures ImageOf(form).value.read.thrown == NonError ==>
      SubmitOutcome(ImageEditing, form, content, image) == Failed(UnexpectedMsg)
    ensures SubmitRequests(ImageEditing, form) == []
  {
  }

  /** An image-editing submit without a file or without a prompt reports the upload
      message and sends nothing. */
  lemma MissingUploadSendsNothing(form: FormValues, content: ContentResponse, image: ImageResponse)
    requires ImageOf(form).None? || PromptOf(form) == ""
    ensures SubmitOutcome(ImageEditing, form, content, image) == Failed(UploadPromptMsg)
    ensures SubmitRequests(ImageEditing, form) == []
  {
  }

  /** An image-editing submit reaches the service exactly when every input the edit
      needs is present, and then sends the file's data and type with the prompt. */
  lemma ImageRequestNeedsAllInputs(form: FormValues)
    ensures |SubmitRequests(ImageEditing, form)| <= 1
    ensures |SubmitRequests(ImageEditing, form)| == 1 <==>
      ImageOf(form).Some? && ImageOf(form).value.read.Read?
      && InputsPresent(ImageOf(form).value.read.base64, ImageOf(form).value.mimeType, PromptOf(form))
    ensures |SubmitRequests(ImageEditing, form)| == 1 ==>
      SubmitRequests(ImageEditing, form)[0]
        == ImageRequest(ImageOf(form).value.read.base64, ImageOf(form).value.mimeType, PromptOf(form))
  {
  }

  /** A text-generation submit sends one prompt, and the text typed into each field
      that template interpolates reaches that prompt verbatim. */
  lemma ContentRequestCarriesTypedText(id: TemplateId, form: FormValues, key: string)
    requires id != ImageEditing
    requires key in form && form[key].TextValue?
    requires key in PromptKeys(id)
    ensures |SubmitRequests(id, form)| == 1
    ensures Includes(SubmitRequests(id, form)[0].prompt, form[key].text)
  {
    var m := Stringify(form);
    assert Lookup(m, key) == form[key].text;
  }

  // ---------------------------------------------------------------------------
  // The controller
  // ---------------------------------------------------------------------------

  /** The one view `renderContent` shows. */
  datatype View =
    | Spinner
    | ErrorBanner(message: string)
    | CarouselView(slides: seq<Json>)
    | ImageView(result: ImageEditResult)
    | FormView(template: Template)
    | TemplateSelection

  class Controller {
    var selectedTemplate: Option<Template>
    var carouselData: Option<seq<Json>>
    var imageResult: Option<ImageEditResult>
    var loading: bool
    var error: Option<string>
    /** The requests sent to the remote service so far. */
    ghost var requests: seq<Request>

    /** Between transitions nothing is loading, an error is never shown next to a
        result, and at most one result is held. */
    ghost predicate Valid()
      reads this
    {
      && !loading
      && (error.Some? ==> carouselData.None? && imageResult.None?)
      && !(carouselData.Some? && imageResult.Some?)
    }

    /** The state of the five `useState` hooks on first render. */
    predicate IsInitial()
      reads this
    {
      selectedTemplate.None? && carouselData.None? && imageResult.None? && !loading && error.None?
    }

    constructor ()
      ensures IsInitial() && Valid() && requests == []
    {
      selectedTemplate, carouselData, imageResult, loading, error := None, None, None, false, None;
      requests := [];
    }

    /** `renderContent`: loading, then error, then carousel, then image, then the form,
        and the template selection when nothing else applies. An empty error message
        is falsy and does not show. */
    function View(): (v: View)
      reads this
      ensures v == Spinner <==> loading
      ensures v.ErrorBanner? ==> !loading && error == Some(v.message) && v.message != ""
      ensures v.CarouselView? ==> !loading && !Truthy(error) && carouselData == Some(v.slides)
      ensures v.ImageView? ==>
        !loading && !Truthy(error) && carouselData.None? && imageResult == Some(v.result)
      ensures v.FormView? ==>
        !loading && !Truthy(error) && carouselData.None? && imageResult.None?
        && selectedTemplate == Some(v.template)
      ensures v == TemplateSelection ==>
        !loading && !Truthy(error) && carouselData.None? && imageResult.None? && selectedTemplate.None?
    {
      if loading then Spinner
      else if Truthy(error) then ErrorBanner(error.value)
      else if carouselData.Some? then CarouselView(carouselData.value)
      else if imageResult.Some? then ImageView(imageResult.value)
      else if selectedTemplate.Some? then FormView(selectedTemplate.value)
      else TemplateSelection
    }

    /** `onSelect`: choose a template from the selection screen. */
    method SelectTemplate(t: Template)
      requires Valid()
      modifies this
      ensures Valid()
      ensures selectedTemplate == Some(t)
      ensures carouselData == old(carouselData) && imageResult == old(imageResult)
      ensures loading == old(loading) && error == old(error) && requests == old(requests)
    {
      selectedTemplate := Some(t);
    }

    /** `onBack`: leave the form for the selection screen. */
    method Back()
      requires Valid()
      modifies this
      ensures Valid()
      ensures selectedTemplate == None
      ensures carouselData == old(carouselData) && imageResult == old(imageResult)
      ensures loading == old(loading) && error == old(error) && requests == old(requests)
    {
      selectedTemplate := None;
    }

    /** `handleFormSubmit`: ignored without a selected template; otherwise the results
        of the previous submit are discarded, one remote call is made (or none, when
        the inputs are refused first), its result or error is stored, and loading ends
        whatever the outcome. */
    method HandleFormSubmit(form: FormValues, content: ContentResponse, image: ImageResponse)
      modifies this
      ensures old(selectedTemplate).None? ==>
        selectedTemplate == old(selectedTemplate) && carouselData == old(carouselData)
        && imageResult == old(imageResult) && loading == old(loading) && error == old(error)
        && requests == old(requests)
      ensures old(selectedTemplate).Some? ==>
        && selectedTemplate == old(selectedTemplate)
        && Outcome(carouselData, imageResult, error)
             == SubmitOutcome(old(selectedTemplate).value.id, form, content, image)
        && requests == old(requests) + SubmitRequests(old(selectedTemplate).value.id, form)
        && Valid()
        && View() != Spinner
        && (Truthy(error) ==> View() == ErrorBanner(error.value))
        && (carouselData.Some? ==> View() == CarouselView(carouselData.value))
        && (imageResult.Some? ==> View() == ImageView(imageResult.value))
    {
      if selectedTemplate.None? {
        return;
      }
      // The first four updates: only the spinner shows until the call settles.
      loading, error, carouselData, imageResult := true, None, None, None;
      assert View() == Spinner;
      var id := selectedTemplate.value.id;
      if id == ImageEditing {
        var imageFile, prompt := ImageOf(form), PromptOf(form);
        if imageFile.None? || prompt == "" {
          error := Some(UploadPromptMsg);
        } else {
          match imageFile.value.read {
            case ReadFailed(thrown) =>
              error := Some(ErrorText(thrown));
            case Read(base64Image) =>
              if InputsPresent(base64Image, imageFile.value.mimeType, prompt) {
                requests := requests + [ImageRequest(base64Image, imageFile.value.mimeType, prompt)];
              }
              var result := EditImage(base64Image, imageFile.value.mimeType, prompt, image);
              match result {
                case Ok(r) => imageResult := Some(r);
                case Err(message) => error := Some(message);
              }
          }
        }
      } else {
        var stringFormData := Stringify(form);
        ghost var prompt := BuildPrompt(id, stringFormData);
        requests := requests + [ContentRequest(prompt.value)];
        var data := GenerateCarouselContent(id, stringFormData, content);
        match data {
          case Ok(slides) => carouselData := Some(slides);
          case Err(message) => error := Some(message);
        }
      }
      loading := false;
    }

    /** `handleReset`: back to the initial state. */
    method HandleReset()
      modifies this
      ensures IsInitial() && Valid() && View() == TemplateSelection && requests == old(requests)
    {
      selectedTemplate := None;
      carouselData := None;
      imageResult := None;
      error := None;
      loading := false;
    }
  }
}
