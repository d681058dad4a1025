/** The static template catalog (constants.ts) and the structural facts it satisfies. */
module Constants {
  import opened Wrappers
  import opened Types

  const PlatformOptions: seq<SelectOption> :=
    [SelectOption("Instagram", "Instagram"), SelectOption("LinkedIn", "LinkedIn")]

  const BasicTemplate: Template := Template(
    Basic,
    "Carrusel Básico",
    "Genera un carrusel simple y efectivo con una estructura clásica: portada, problema, solución y CTA.",
    [ Field("topic", "Tema Principal", Text, "Ej: \"Consejos de productividad para freelancers\"", None, true),
      Field("objective", "Objetivo del Carrusel", Text, "Ej: \"Atraer nuevos seguidores y generar guardados\"", None, true),
      Field("slides", "Número de Diapositivas", Number, "Ej: 7", None, true),
      Field("platform", "Plataforma", Select, "Selecciona una plataforma", Some(PlatformOptions), true) ])

  const StorytellingTemplate: Template := Template(
    Storytelling,
    "Carrusel Narrativo (Storytelling)",
    "Crea un carrusel que cuenta una historia para conectar emocionalmente con tu audiencia.",
    [ Field("topic", "Tema de la Historia", Text, "Ej: \"Cómo superé el miedo a hablar en público\"", None, true),
      Field("slides", "Número de Diapositivas", Number, "Ej: 8", None, true) ])

  const EditableTemplate: Template := Template(
    Editable,
    "Plantilla Editable",
    "Genera una plantilla de carrusel con placeholders para que puedas rellenar y adaptar fácilmente.",
    [ Field("topic", "Tema General", Text, "Ej: \"Marketing Digital\"", None, true) ])

  const UniversalTemplate: Template := Template(
    Universal,
    "Carrusel Universal",
    "Un modelo versátil que se adapta a cualquier tema, ideal para contenido educativo y de valor.",
    [ Field("topic", "Tema Principal", Text, "Ej: \"Los beneficios de la meditación\"", None, true),
      Field("objective", "Objetivo del Carrusel", Select, "Selecciona un objetivo",
        Some([ SelectOption("educar", "Educar"),
               SelectOption("atraer clientes", "Atraer Clientes"),
               SelectOption("generar confianza", "Generar Confianza"),
               SelectOption("invitar a inscribirse", "Invitar a Inscribirse"),
               SelectOption("storytelling", "Storytelling") ]), true),
      Field("audience", "Público Objetivo", Text, "Ej: \"Emprendedores ocupados\"", None, true),
      Field("slides", "Número de Diapositivas", Number, "Ej: 10", None, true),
      Field("platform", "Plataforma", Select, "Selecciona una plataforma",
        Some(PlatformOptions + [SelectOption("Facebook", "Facebook")]), true),
      Field("tone", "Tono de Voz", Select, "Selecciona un tono",
        Some([ SelectOption("Profesional", "Profesional"),
               SelectOption("Amistoso", "Amistoso"),
               SelectOption("Inspirador", "Inspirador"),
               SelectOption("Humorístico", "Humorístico") ]), true) ])

  const ImageEditingTemplate: Template := Template(
    ImageEditing,
    "Edición de Imagen con IA",
    "Sube una imagen y edítala usando un prompt de texto para añadir, quitar o modificar elementos.",
    [ Field("image", "Sube tu imagen", File, "", None, true),
      Field("prompt", "Instrucciones de edición", Text, "Ej: \"añade un sombrero de fiesta al gato\"", None, true) ])

  /** `TEMPLATES`: the catalog, in the order the selection screen lists it. */
  const Templates: seq<Template> :=
    [BasicTemplate, StorytellingTemplate, EditableTemplate, UniversalTemplate, ImageEditingTemplate]

  /** Position of a template identifier in the enumeration's declaration order. */
  function Ordinal(id: TemplateId): (k: nat)
    ensures k < 5
  {
    match id
    case Basic => 0
    case Storytelling => 1
    case Editable => 2
    case Universal => 3
    case ImageEditing => 4
  }

  /** The catalog entry of a template identifier. */
  function TemplateFor(id: TemplateId): (t: Template)
    ensures t in Templates && t.id == id
  {
    Templates[Ordinal(id)]
  }

  /** No two fields of a template share a name (names are the keys of the submitted values). */
  ghost predicate UniqueFieldNames(t: Template)
  {
    forall j, k :: 0 <= j < k < |t.fields| ==> t.fields[j].name != t.fields[k].name
  }

  /** A select field offers at least one option and no value twice; other kinds carry no options. */
  ghost predicate OptionsMatchKind(f: Field)
  {
    if f.kind == Select then
      f.options.Some? && |f.options.value| > 0 &&
      forall j, k :: 0 <= j < k < |f.options.value| ==> f.options.value[j].value != f.options.value[k].value
    else
      f.options.None?
  }

  /** The catalog has one template per identifier, in the enumeration's order. */
  lemma CatalogFollowsEnum()
    ensures |Templates| == 5
    ensures forall i :: 0 <= i < |Templates| ==> Ordinal(Templates[i].id) == i
    ensures forall i, j :: 0 <= i < j < |Templates| ==> Templates[i].id != Templates[j].id
  {
  }

  /** Every template keys its fields uniquely. */
  lemma FieldNamesAreUnique(i: nat)
    requires i < |Templates|
    ensures UniqueFieldNames(Templates[i])
  {
  }

  /** Every field of the catalog has options exactly when it is a select field. */
  lemma OptionsMatchKinds(i: nat, j: nat)
    requires i < |Templates| && j < |Templates[i].fields|
    ensures OptionsMatchKind(Templates[i].fields[j])
  {
  }

  /** Every field of the catalog is marked required. */
  lemma AllFieldsRequired(i: nat, j: nat)
    requires i < |Templates| && j < |Templates[i].fields|
    ensures Templates[i].fields[j].required
  {
  }

  /** The image-editing template declares exactly the two keys the controller reads:
      a file field `image` and a text field `prompt`. */
  lemma ImageEditingDeclaresImageAndPrompt()
    ensures |TemplateFor(ImageEditing).fields| == 2
    ensures TemplateFor(ImageEditing).fields[0].name == "image" && TemplateFor(ImageEditing).fields[0].kind == File
    ensures TemplateFor(ImageEditing).fields[1].name == "prompt" && TemplateFor(ImageEditing).fields[1].kind == Text
  {
  }
}
