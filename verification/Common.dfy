/** Datatypes shared by every component. */
module Common {

  /** A nullable column, a missing dictionary key or an absent message field. */
  datatype Option<+T> = None | Some(value: T)

  /** What happened, oldest first. */
  datatype Log<T> = Empty | Then(before: Log<T>, last: T)

  predicate Has<T(==)>(log: Log<T>, x: T) {
    log.Then? && (log.last == x || Has(log.before, x))
  }

  function Size<T>(log: Log<T>): nat {
    if log.Empty? then 0 else Size(log.before) + 1
  }

  function Join<T>(first: Log<T>, second: Log<T>): Log<T> {
    if second.Empty? then first else Then(Join(first, second.before), second.last)
  }
}
