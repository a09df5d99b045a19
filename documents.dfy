/**
 * What the object-document mapper checks on every field of a document before
 * it is saved. A field is an Option: None is a field the document does not
 * have.
 */
module Documents {
  import opened Wrappers

  /** Document identifiers (`_id`) and references to them. */
  type Id = nat

  /**
   * `required: true` on a String path: the value must be present and, as the
   * mapper's string check demands a non-zero length, non-empty.
   */
  predicate RequiredString(f: Option<string>) {
    f.Some? && f.value != ""
  }

  /** `enum: [...]`: a present value is one of `allowed`; an absent one is not checked. */
  predicate EnumOk(f: Option<string>, allowed: seq<string>) {
    f.Some? ==> f.value in allowed
  }
}
