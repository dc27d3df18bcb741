/** Diagnostic messages (OneModel.Results/Message.cs).

    A message is an immutable pair of a severity and a free-text description.
    The datatype constructor `Message(severity, text)` stands for the class
    constructor, and the destructors `severity` and `text` for the two
    getter-only properties: a datatype value cannot be updated, so a message
    never changes after it is built.
 */
module Messages {

  /** The two severities a message can carry; only `Error` affects validity. */
  datatype Severity = Warning | Error

  /** One diagnostic: its severity and its text. */
  datatype Message = Message(severity: Severity, text: string)

  /** Construction performs no validation: for every severity and every text,
      the empty text included, it yields a message whose properties read back
      exactly the arguments it was given. */
  lemma ConstructionStoresArguments(severity: Severity, text: string)
    ensures Message(severity, text).severity == severity
    ensures Message(severity, text).text == text
  {
  }
}
