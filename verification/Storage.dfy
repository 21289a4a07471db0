/** The one fault model of the stores: a file is replaced as a whole or not at all. */
module Storage {
  /** How one atomic write ends. A crash leaves either the old file or the new one. */
  datatype Fate = Written | Refused | CrashBefore | CrashAfter

  predicate Persists(fate: Fate) {
    fate == Written || fate == CrashAfter
  }
}
