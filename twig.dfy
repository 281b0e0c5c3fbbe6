/**
 * The template engine, abstracted. Twig itself is a foreign library: a template
 * environment is reduced to what rendering does observably, namely it turns a
 * template name and a variable context into text, or fails because the template
 * cannot be loaded, or fails while rendering.
 */
module Twig {

  /** The values a variable context (or the project configuration) is made of. */
  datatype Value = Text(text: string) | Flag(flag: bool) | Table(entries: map<string, Value>)

  type Vars = map<string, Value>

  datatype Rendering =
    | Rendered(text: string)
    | NotLoadable(reason: string)   // Twig_Error_Loader
    | Failed(reason: string)        // any other Twig_Error

  /** A Twig_Environment: a fixed template root together with its rendering behaviour. */
  datatype Environment = Environment(render: (string, Vars) -> Rendering)
}
