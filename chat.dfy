/** The conversation record as far as the sharing and attestation dialogs
    read it. */
module Chat {
  import opened Json

  datatype Model = Model(id: string, name: string)

  /** `messages` is passed through to the serialiser untouched, so it is
      kept as a JavaScript value. */
  datatype Conversation = Conversation(
    id: string,
    name: string,
    prompt: string,
    model: Model,
    messages: JsValue)
}
