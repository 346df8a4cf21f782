/** The simulated clock: one current-date row, created by the first advance and
    overwritten by every later one. */
module Clock {
  import opened Common
  import opened Store

  /** Reading the clock: "not found" until a date has been set. */
  function CurrentDate(cell: Option<int>): (r: Result<int>)
    ensures cell.None? <==> r == Failure(NotFound(NoCurrentDate))
    ensures r.Success? <==> cell.Some?
    ensures r.Success? ==> r.value == cell.value
  {
    match cell
    case None => Failure(NotFound(NoCurrentDate))
    case Some(d) => Success(d)
  }

  /** Sets the current date to `d`, with no comparison against the previous date,
      so the clock may also move backwards. Returns the date it stored. */
  method AdvanceTime(db: Database, d: int) returns (r: int)
    requires db.Valid()
    modifies db`currentDate
    ensures db.Valid()
    ensures r == d
    ensures db.currentDate == Some(d)
    ensures CurrentDate(db.currentDate) == Success(d)
  {
    if db.currentDate.None? {
      // first advance: the row is created
      db.currentDate := Some(d);
    } else {
      // later advances overwrite the one row
      db.currentDate := Some(d);
    }
    r := d;
  }
}
