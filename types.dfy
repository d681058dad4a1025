/** The shared data types of the application (types.ts). */
module Types {
  import opened Wrappers

  /** The closed set of template identifiers, in declaration order. */
  datatype TemplateId = Basic | Storytelling | Editable | Universal | ImageEditing

  /** One slide of a generated carousel, as the response schema describes it. */
  datatype SlideContent = SlideContent(title: string, content: string, visualSuggestion: string, emojis: string)

  /** The input kind of a form field. */
  datatype FieldKind = Text | Number | Select | File

  /** One choice of a `select` field (`label` in the source is a Dafny keyword, hence `caption`). */
  datatype SelectOption = SelectOption(value: string, caption: string)

  /** A form field of a template; `options` is absent (`None`) when the source leaves it out. */
  datatype Field = Field(
    name: string,
    caption: string,
    kind: FieldKind,
    placeholder: string,
    options: Option<seq<SelectOption>>,
    required: bool)

  datatype Template = Template(id: TemplateId, name: string, description: string, fields: seq<Field>)

  /** The result of an image edit; both parts may be `null` in the source. */
  datatype ImageEditResult = ImageEditResult(imageUrl: Option<string>, text: Option<string>)
}
