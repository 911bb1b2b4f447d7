/** The optional value the dashboard uses for its nullable state slots
    (`activeFlow`, `ghostLeak`, `notification`): `null` becomes `None`. */
module Options {

  datatype Option<+T> = None | Some(value: T)
}
