/** The template records the order-start page works with (src/api/template/types/template.ts). */
module TemplateTypes {
  import opened Common

  /**
   * A workflow template. `name` may be absent (the search filter guards it
   * with `?.`); `desc` is absent on the placeholder the favourite toggle
   * builds. `rules` and `options` are free-form and are not part of this model.
   */
  datatype Template = Template(
    id: int,
    name: Option<string>,
    icon: string,
    desc: Option<string>,
    workflowId: Option<int>,
    groupId: Option<int>)

  /** A template group with its templates (`templateCombination`); the list may be absent. */
  datatype TemplateGroup = TemplateGroup(
    id: int,
    name: string,
    icon: string,
    total: int,
    templates: Option<seq<Template>>)

  /** `item.templates || []`. */
  function TemplatesOf(g: TemplateGroup): seq<Template> {
    g.templates.GetOr([])
  }
}
