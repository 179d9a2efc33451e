/** The absent-or-present wrapper used for every nullable field of the trip
    state and for every reply of an external collaborator (route, price,
    ride service). */
module Optional {

  datatype Option<+T> = None | Some(value: T)
}
