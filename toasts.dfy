/** The pop-up notices the pages raise through the toast library: a success notice or an error notice with its text. */
module Toasts {
  datatype Toast = Success(message: string) | Error(message: string)
}
