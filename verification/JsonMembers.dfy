/** Which members a JSON object has, by the kind of their values. */
module JsonMembers {
  import opened Json

  predicate HasText(j: Json, key: string) {
    j.JObj? && key in j.fields && j.fields[key].JStr?
  }

  predicate HasInt(j: Json, key: string) {
    j.JObj? && key in j.fields && j.fields[key].JInt?
  }

  /** A 32-bit number may also be a truth value. */
  predicate HasShort(j: Json, key: string) {
    j.JObj? && key in j.fields && (j.fields[key].JInt? || j.fields[key].JBool?)
  }

  predicate HasBool(j: Json, key: string) {
    j.JObj? && key in j.fields && j.fields[key].JBool?
  }

  predicate Lacks(j: Json, key: string) {
    j.JObj? && key !in j.fields
  }
}
