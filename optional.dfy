/** Missing values. pandas marks an absent cell with NaN; the model marks it with None. */
module Optional {

  datatype Option<+T> = None | Some(value: T)
}
