/** Small shared datatypes: the optional value that stands in for a C# null reference. */
module Common {

  /** `None` plays the role of a null reference or a failed dictionary lookup. */
  datatype Option<+T> = None | Some(value: T)
}
