/** Option and Outcome values, and the errors the simulation core raises. */
module Wrappers {

  datatype Option<+T> = None | Some(value: T) {
    function GetOr(default: T): T {
      match this
      case Some(v) => v
      case None => default
    }
  }

  /** The source's exceptions. Each is a ReferenceError or TypeError thrown by
      the catalog, the node constructor, recipe selection or the older
      Machine revision. */
  datatype Error =
    | UnknownDataType                               // listMetadata / hasMetadata on a missing section
    | InvalidNodeType(nodeType: string)             // `new Node(type)` with an unknown type
    | GhostRecipe(name: string, nodeType: string)   // setRecipe(name) on a ghost
    | InvalidRecipe(name: string, nodeType: string) // setRecipe(name) with a name the type does not list
    | UntrackedResource(name: string)               // Machine: `resources.get(name).amount` on undefined

  datatype Result<+T> = Success(value: T) | Failure(error: Error)

  datatype Outcome = Pass | Fail(error: Error)
}
