/** Option for "absent" values (findOne's null, validatePassword's null). */
module Wrappers {

  datatype Option<+T> = None | Some(value: T)

}
