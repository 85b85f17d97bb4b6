/** Shared vocabulary of the model: optional values, results carrying the
    exception the Python code would raise, users, and the wall clock reduced
    to integer microseconds and calendar days. */
module Base {

  datatype Option<+T> = None | Some(value: T)

  /** The exceptions the modelled code raises or lets escape to its caller. */
  datatype Error =
    | PermissionDenied          // django.core.exceptions.PermissionDenied
    | NotFound                  // Http404 raised by get_object_or_404
    | DoesNotExist              // Model.DoesNotExist raised by objects.get
    | MultipleObjectsReturned   // objects.get matched more than one row
    | IntegrityError            // a unique constraint refused an insert or update
    | AttributeError            // a class attribute that is not declared
    | UnboundLocalError         // a local variable read before its first assignment

  /** A value, or the exception raised instead of returning it. */
  datatype Result<+T> = Ok(value: T) | Err(error: Error)

  /** The outcome of a procedure that returns None in Python. */
  datatype Outcome = Pass | Fail(error: Error)

  /** The fields of the Django user that the modelled code reads. */
  datatype User = User(id: int, isStaff: bool)

  /** Timestamps are naive local datetimes counted in microseconds from the
      epoch, the resolution of Python's datetime. */
  const MicrosPerDay: int := 86_400_000_000

  /** The calendar day of a timestamp: midnight is the start of its day. */
  function Day(ts: int): int
  {
    ts / MicrosPerDay
  }

  /** `ts.replace(hour=0, minute=0, second=0, microsecond=0)`: the midnight
      that starts the day of `ts`. */
  function DayStart(ts: int): (r: int)
    ensures r % MicrosPerDay == 0
    ensures r <= ts < r + MicrosPerDay
    ensures Day(r) == Day(ts)
  {
    MidnightOfDay(Day(ts));
    Day(ts) * MicrosPerDay
  }

  /** The start of every day is a whole number of days. */
  lemma MidnightOfDay(d: int)
    ensures (d * MicrosPerDay) % MicrosPerDay == 0
  {
  }

  /** A timestamp lies in `[midnight, midnight + 1 day)` of `now` exactly when
      it falls on the same calendar day as `now`. */
  lemma InTodayIffSameDay(ts: int, now: int)
    ensures DayStart(now) <= ts < DayStart(now) + MicrosPerDay <==> Day(ts) == Day(now)
  {
    var d := Day(now);
    assert DayStart(now) == d * MicrosPerDay;
    if DayStart(now) <= ts < DayStart(now) + MicrosPerDay {
      DayOfOffset(d, ts - d * MicrosPerDay);
    } else {
      assert ts == Day(ts) * MicrosPerDay + ts % MicrosPerDay;
      if Day(ts) == d {
        assert false;
      }
    }
  }

  /** A timestamp `offset` microseconds after the midnight of day `d` is on day `d`. */
  lemma DayOfOffset(d: int, offset: int)
    requires 0 <= offset < MicrosPerDay
    ensures Day(d * MicrosPerDay + offset) == d
  {
  }

  // ---------------------------------------------------------------------
  // Facts about finite sets used when a query must match exactly one row.

  lemma HasElement(s: set<int>)
    requires s != {}
    ensures exists x :: x in s
  {
    if forall x :: x !in s {
      assert false;
    }
  }

  lemma SubsetCardinality(a: set<int>, b: set<int>)
    requires a <= b
    ensures |a| <= |b|
  {
    assert b == a + (b - a);
  }

  /** A set of one element has no two different members. */
  lemma SingletonMembers(s: set<int>, a: int, b: int)
    requires |s| == 1 && a in s && b in s
    ensures a == b
  {
    if a != b {
      assert |{a, b}| == 2;
      SubsetCardinality({a, b}, s);
    }
  }
}
