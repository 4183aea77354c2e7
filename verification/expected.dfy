/**
 * `nonstd::expected<T, E>`: either a value or an "unexpected" error.
 */
module Expected {

  datatype Expected<+T, +E> = Value(value: T) | Unexpected(error: E)
}
