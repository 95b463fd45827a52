/** What a call to the text-inference provider hands back, once the stage has
    read `response.text` and parsed it. The provider itself is not modelled:
    each stage receives its reply as an arbitrary value. */
module Gateway {

  datatype Reply<+T> =
    | Answer(value: T)        // non-empty text, parsed into the stage's schema
    | NoText                  // `response.text` was empty or missing
    | Threw(message: string)  // the call or the parse raised an error with this message
}
