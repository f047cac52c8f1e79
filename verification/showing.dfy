/** A recorded display of a banner: one row of the showings table. */
module Showings {
  import opened Dates

  /** A `QDateTime`: the calendar day and the minute within that day. */
  datatype DateTime = DateTime(date: Day, minute: int)

  datatype Showing = Showing(id: int, siteName: string, datetime: DateTime, bannerId: int)

  /** The form input for a showing before storage has assigned it an id. */
  datatype ShowingShortData = ShowingShortData(siteName: string, datetime: DateTime)
}
