/**
 * Values that the cloud assembly only knows at deploy time. A construct's
 * attributes (`roleArn`, `keyArn`, `attrDomainId`, a subnet's `subnetId`, ...)
 * are late-bound tokens; the model keeps them abstract as the record they
 * belong to and the attribute's name, and never confuses one with the plain
 * text of a literal string.
 */
module Tokens {
  import opened Wrappers

  /** The position of a record in the synthesized construct tree. */
  type Handle = nat

  /** A construct's path: the ids from the root of the tree down to it. */
  type Path = seq<string>

  datatype Token = Lit(text: string) | Attr(target: Handle, attribute: string)

  /** The text a template literal gives an optional string: `undefined` for a missing one. */
  function TemplateText(o: Option<string>): (t: string)
    ensures o.Some? ==> t == o.value
  {
    match o
    case Some(s) => s
    case None => "undefined"
  }

  /** JavaScript truthiness of an optional string: present and not empty. */
  predicate Truthy(o: Option<string>) {
    o.Some? && o.value != ""
  }

  /** `a || b` on optional strings. */
  function OrElse(a: Option<string>, b: string): (r: string)
    ensures Truthy(a) ==> r == a.value
    ensures !Truthy(a) ==> r == b
  {
    if Truthy(a) then a.value else b
  }
}
