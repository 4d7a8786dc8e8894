/** The Template record shared by the query service and the web app
    (the `Template` interface and its inline copy in the router). */
module TemplateTypes {
  import opened Wrappers

  /** A sub-unit of a template's code, reserved for partial copying. */
  datatype TemplateSection = TemplateSection(
    id: string,
    name: string,
    code: string,
    description: Option<string>)

  /** Search-engine metadata of a template. */
  datatype Seo = Seo(
    title: string,
    description: string,
    keywords: Option<seq<string>>)

  /** One catalog entry. Optional TypeScript properties are `Option`s; an
      absent property is `None`, which is distinct from an empty string or list. */
  datatype Template = Template(
    id: string,
    name: string,
    description: string,
    previewImage: Option<string>,
    category: Option<string>,
    tags: Option<seq<string>>,
    code: string,
    sections: Option<seq<TemplateSection>>,
    seo: Option<Seo>)

  /** JavaScript truthiness of `template.tags && template.tags.length > 0`. */
  predicate HasTags(t: Template)
  {
    t.tags.Some? && |t.tags.value| > 0
  }
}
