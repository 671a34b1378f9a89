/** The toast notifications pages raise after an asynchronous action settles. */
module Toasts {
  datatype Toast = Success(text: string) | Failure(text: string)
}
