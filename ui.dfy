/** Values the components hand to the browser and the toast system. */
module Ui {

  /** A notification: its title and description. */
  datatype Toast = Toast(title: string, description: string)

  /** A file the user picked in an `<input type="file">`; only its name matters to the model. */
  datatype File = File(name: string)
}
