/** The catalog (constants.ts) checked against the prompt builder
    (services/geminiService.ts): each text-generation prompt interpolates exactly
    the fields its template declares. */
module CatalogConsistency {
  import opened Types
  import opened Strings
  import opened Constants
  import opened GeminiService

  /** Field `name` is declared by the template. */
  ghost predicate Declares(t: Template, name: string)
  {
    exists j :: 0 <= j < |t.fields| && t.fields[j].name == name
  }

  /** Every key a prompt interpolates is a field of that template, and every field of
      a text-generation template is interpolated. */
  lemma PromptKeysAreDeclaredFields(id: TemplateId)
    ensures forall k :: k in PromptKeys(id) ==> Declares(TemplateFor(id), k)
    ensures id != ImageEditing ==>
      forall j :: 0 <= j < |TemplateFor(id).fields| ==> TemplateFor(id).fields[j].name in PromptKeys(id)
  {
    var fs := TemplateFor(id).fields;
    match id {
      case Basic =>
        assert fs[0].name == "topic" && fs[1].name == "objective" && fs[2].name == "slides" && fs[3].name == "platform";
      case Storytelling =>
        assert fs[0].name == "topic" && fs[1].name == "slides";
      case Editable =>
        assert fs[0].name == "topic";
      case Universal =>
        assert fs[0].name == "topic" && fs[1].name == "objective" && fs[2].name == "audience";
        assert fs[3].name == "slides" && fs[4].name == "platform" && fs[5].name == "tone";
      case ImageEditing =>
    }
  }

  /** Two forms that agree on the template's declared fields give the same prompt:
      the prompt reads no key the template does not declare. */
  lemma PromptReadsOnlyDeclaredFields(id: TemplateId, f: FormData, g: FormData)
    requires forall j :: 0 <= j < |TemplateFor(id).fields| ==>
      Lookup(f, TemplateFor(id).fields[j].name) == Lookup(g, TemplateFor(id).fields[j].name)
    ensures BuildPrompt(id, f) == BuildPrompt(id, g)
  {
    PromptKeysAreDeclaredFields(id);
    var keys := PromptKeys(id);
    forall i | 0 <= i < |keys| ensures Values(f, keys)[i] == Values(g, keys)[i] {
      assert Declares(TemplateFor(id), keys[i]);
    }
    assert Values(f, keys) == Values(g, keys);
  }

  /** The value of every declared field of a text-generation template appears verbatim
      in its prompt. */
  lemma PromptCarriesEveryDeclaredField(id: TemplateId, form: FormData, j: nat)
    requires id != ImageEditing && j < |TemplateFor(id).fields|
    ensures BuildPrompt(id, form).Ok?
    ensures Includes(BuildPrompt(id, form).value, Lookup(form, TemplateFor(id).fields[j].name))
  {
    PromptKeysAreDeclaredFields(id);
  }
}
