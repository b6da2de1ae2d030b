/** The dialogs a controller shows the user: an information alert or an
    error dialog, each with a title and a message. Rendering them is left
    to the user interface, which is not part of this model. */
module Notices {

  datatype Notice =
    | Alert(title: string, message: string)
    | Error(title: string, message: string)
}
