/** Document identifiers. Every stored document has one, drawn from a counter that only
    grows, so identifiers are never reused (the role MongoDB's ObjectId plays). */
module Ids {
  type Id = nat
}
