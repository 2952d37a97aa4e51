/** The optional value used wherever the program has "nothing yet" (no cursor
    position, a status-bar label still showing "-") or a cancelled dialog. */
module Options {

  datatype Option<+T> = None | Some(value: T)

}
