/** The IllegalArgumentException conditions raised while constructing and registering transformers. */
module Failures {

  datatype Error =
    | EmptyId               // the id is null or empty
    | IllegalIdCharacter    // the id holds a character outside [0-9a-z\-._]
    | EmptyName             // the name is null or empty
    | SettingsNotEnum       // a settings class was given that is not an enum
    | DuplicateId(id: string)
    | DuplicateName(name: string)

  /** The exception message the Java code attaches to each condition. */
  function Message(e: Error): (r: string)
    ensures |r| > 0
    ensures e.DuplicateId? ==> e.id <= r
    ensures e.DuplicateName? ==> e.name <= r
  {
    match e
    case EmptyId => "ID must not be empty"
    case IllegalIdCharacter => "ID must only be lowercase letters and numbers"
    case EmptyName => "Name must not be empty"
    case SettingsNotEnum => "Settings must be an enum"
    case DuplicateId(id) => id + " already exists!"
    case DuplicateName(name) => name + " already exists!"
  }

  /** A duplicate id and a duplicate name with the same text produce the same message:
      the message alone does not tell which of the two maps refused the instance. */
  lemma DuplicateMessagesCoincide(key: string)
    ensures Message(DuplicateId(key)) == Message(DuplicateName(key))
  {
  }
}
