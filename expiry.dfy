/** The end-of-day expiry rule shared by the profile and "my events" pages:
    `new Date(eventDate)`, `setHours(23, 59, 59, 999)`, `today > event`.

    Instants are local wall-clock milliseconds; day `d` covers the instants
    `d * MS_PER_DAY` up to and including `d * MS_PER_DAY + MS_PER_DAY - 1`. */
module Expiry {
  import opened Common

  const MS_PER_DAY: int := 86_400_000

  /** What `new Date(s)` yields, reduced to its local calendar day; `Invalid`
      is the Invalid Date (for which every comparison is false). */
  datatype EventDate = Invalid | OnDay(day: int)

  function DayStart(day: int): int {
    day * MS_PER_DAY
  }

  /** 23:59:59.999 of `day`. */
  function DayEnd(day: int): int {
    DayStart(day) + MS_PER_DAY - 1
  }

  /** The local day that instant `now` falls on. */
  function DayOf(now: int): (day: int)
    ensures DayStart(day) <= now <= DayEnd(day)
  {
    now / MS_PER_DAY
  }

  /** `new Date(raw)` for a possibly missing date string; `parse` stands for the
      browser's date parsing and local-time conversion. */
  function LocalDay(raw: Option<string>, parse: string -> EventDate): (d: EventDate)
    ensures raw.None? ==> d == Invalid
  {
    match raw
    case None => Invalid
    case Some(s) => parse(s)
  }

  /** `isExpired`: now is strictly after the end of the event's day. */
  predicate IsExpired(now: int, date: EventDate): (b: bool)
    ensures b <==> date.OnDay? && now >= DayStart(date.day + 1)
  {
    date.OnDay? && now > DayEnd(date.day)
  }

  /** Expired exactly when today is a later day than the event's day; so every
      instant of the event day itself is still valid. */
  lemma ExpiredIffLaterDay(now: int, day: int)
    ensures IsExpired(now, OnDay(day)) <==> DayOf(now) > day
  {
    var today := DayOf(now);
    if today > day {
      assert DayStart(today) >= DayStart(day + 1);
    } else {
      assert DayStart(today) <= DayStart(day);
    }
  }

  /** Any instant on the event's own day is not expired. */
  lemma OnEventDayNotExpired(now: int, day: int)
    requires DayStart(day) <= now <= DayEnd(day)
    ensures !IsExpired(now, OnDay(day))
  {
  }

  /** Any instant after the end of the event's day is expired. */
  lemma AfterEventDayExpired(now: int, day: int)
    requires now > DayEnd(day)
    ensures IsExpired(now, OnDay(day))
  {
  }

  /** An Invalid Date (missing or unparsable) never expires. */
  lemma InvalidDateNeverExpires(now: int)
    ensures !IsExpired(now, Invalid)
  {
  }

  /** Once expired, a ticket stays expired as time moves on. */
  lemma ExpiryIsPermanent(now: int, later: int, date: EventDate)
    requires now <= later
    requires IsExpired(now, date)
    ensures IsExpired(later, date)
  {
  }
}
