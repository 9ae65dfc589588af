/** The two kinds of toast the pages raise through `react-hot-toast`. */
module Toasts {
  datatype Toast = Success(text: string) | Error(text: string)
}
