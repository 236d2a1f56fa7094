/** The optional value used for the renderer's last frame timestamp and for
    "nothing was uploaded this frame". */
module Wrappers {

  datatype Option<+T> = None | Some(value: T)
}
