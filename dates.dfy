/**
 * Foundation's `Date`, kept opaque: a date is known only by the ISO 8601 text
 * it is written as. Parsing and validating that text is not modelled.
 */
module Dates {

  datatype Date = Date(iso8601: string)
}
