/**
 * The calendar's day and week grid (src/components/calendar/TimeGridView.tsx):
 * where an intervention's block sits and how tall it is, the hour labels,
 * the "now" line and the technician's initials. Hours and minutes of the
 * local clock are inputs; pixel values are exact reals.
 */
module TimeGridView {
  import opened Wrappers
  import opened Strings

  const StartHour: int := 7
  const EndHour: int := 18
  const HourHeight: real := 64.0
  const TotalHours: int := EndHour - StartHour
  /** The last visible minute, counted from the top of the grid (660). */
  const GridMinutes: int := TotalHours * 60
  const GridHeight: real := TotalHours as real * HourHeight

  /** A local clock time, as `getHours()` and `getMinutes()` give it. */
  datatype ClockTime = ClockTime(hours: int, minutes: int)

  predicate ValidTime(t: ClockTime) {
    0 <= t.hours < 24 && 0 <= t.minutes < 60
  }

  datatype Block = Block(top: real, height: real)

  /** Minutes from the top of the grid to `t` (negative before 7:00). */
  function GridMinute(t: ClockTime): int {
    (t.hours - StartHour) * 60 + t.minutes
  }

  function MinutesToPixels(m: int): real {
    m as real / 60.0 * HourHeight
  }

  function Max(a: int, b: int): int { if a < b then b else a }
  function Min(a: int, b: int): int { if a < b then a else b }
  function MaxReal(a: real, b: real): real { if a < b then b else a }

  /** `estimated_duration_minutes || 30`, then at least 20 minutes. */
  function DisplayedDuration(estimate: int): (d: int)
    ensures d >= 20
    ensures estimate == 0 ==> d == 30
    ensures estimate >= 20 ==> d == estimate
  {
    Max(if estimate == 0 then 30 else estimate, 20)
  }

  /**
   * `getBlockStyle`: no planned date gives a 30-pixel block at the top.
   * Otherwise the start is clamped to 7:00, the end to 18:00, and the block
   * is at least 20 pixels tall, even when it starts after 18:00.
   */
  function BlockStyle(planned: Option<ClockTime>, estimate: int): (b: Block)
    requires planned.Some? ==> ValidTime(planned.value)
    ensures planned.None? ==> b == Block(0.0, 30.0)
    ensures b.top >= 0.0 && b.height >= 20.0
    ensures planned.Some? && GridMinute(planned.value) <= 0 ==> b.top == 0.0
    ensures planned.Some? && GridMinute(planned.value) >= 0 ==>
      b.top == MinutesToPixels(GridMinute(planned.value))
    // a block that fits above 18:00 is as tall as its displayed duration
    ensures planned.Some? && Max(GridMinute(planned.value), 0) + DisplayedDuration(estimate) <= GridMinutes ==>
      b.height == MinutesToPixels(DisplayedDuration(estimate))
    // one that does not is cut at the bottom of the grid, but kept 20 pixels tall
    ensures planned.Some? && Max(GridMinute(planned.value), 0) + DisplayedDuration(estimate) > GridMinutes ==>
      b.height == MaxReal(GridHeight - b.top, 20.0)
    // a block reaches past the bottom of the grid only at the minimum height
    ensures b.top + b.height <= GridHeight || b.height == 20.0
  {
    if planned.None? then Block(0.0, 30.0)
    else
      var startMinutes := Max(GridMinute(planned.value), 0);
      var endMinutes := Min(startMinutes + DisplayedDuration(estimate), GridMinutes);
      Block(MinutesToPixels(startMinutes), MaxReal(MinutesToPixels(endMinutes - startMinutes), 20.0))
  }

  /** A longer estimate never gives a shorter block, and never moves it. */
  lemma LongerEstimateTaller(t: ClockTime, e1: int, e2: int)
    requires ValidTime(t) && 20 <= e1 <= e2
    ensures BlockStyle(Some(t), e1).top == BlockStyle(Some(t), e2).top
    ensures BlockStyle(Some(t), e1).height <= BlockStyle(Some(t), e2).height
  {
    var s := Max(GridMinute(t), 0);
    assert MinutesToPixels(Min(s + e1, GridMinutes) - s) <= MinutesToPixels(Min(s + e2, GridMinutes) - s);
  }

  /** The drawn height: `Math.max(height, 24)`. */
  function RenderedHeight(b: Block): (h: real)
    ensures h >= 24.0 && h >= b.height
    ensures h == b.height || h == 24.0
  {
    MaxReal(b.height, 24.0)
  }

  /** The labels of the hour column: 7 through 18, one per hour line. */
  function HourLabels(): (hs: seq<int>)
    ensures |hs| == TotalHours + 1
    ensures forall i :: 0 <= i < |hs| ==> hs[i] == StartHour + i
    ensures hs[0] == StartHour && hs[|hs| - 1] == EndHour
  {
    seq(TotalHours + 1, i => StartHour + i)
  }

  /** The red line's offset: drawn only between 7:00 and 18:00 included, and then inside the grid. */
  function NowLine(now: ClockTime): (r: Option<real>)
    ensures r.Some? <==> 0 <= GridMinute(now) <= GridMinutes
    ensures r.Some? ==> 0.0 <= r.value <= GridHeight
    ensures r.Some? ==> r.value == MinutesToPixels(GridMinute(now))
  {
    var nowMin := GridMinute(now);
    if nowMin < 0 || nowMin > GridMinutes then None else Some(MinutesToPixels(nowMin))
  }

  /** `name?.[0] || ''` */
  function FirstLetter(name: Option<string>): (r: string)
    ensures |r| <= 1
    ensures r == "" <==> name.None? || name.value == ""
    ensures r != "" ==> r[0] == name.value[0]
  {
    if name.Some? && name.value != "" then name.value[..1] else ""
  }

  datatype Technician = Technician(firstName: Option<string>, lastName: Option<string>)

  /**
   * `getTechInitials`: nothing without a technician; otherwise the
   * upper-cased first letters of the two names, or `?` when both are
   * missing or empty.
   */
  function TechInitials(tech: Option<Technician>): (r: Option<string>)
    ensures r.None? <==> tech.None?
    ensures r.Some? ==> 1 <= |r.value| <= 2
    ensures r.Some? && FirstLetter(tech.value.firstName) + FirstLetter(tech.value.lastName) == "" ==> r.value == "?"
    ensures r.Some? && FirstLetter(tech.value.firstName) + FirstLetter(tech.value.lastName) != "" ==>
      r.value == ToUpper(FirstLetter(tech.value.firstName) + FirstLetter(tech.value.lastName))
  {
    if tech.None? then None
    else
      var letters := ToUpper(FirstLetter(tech.value.firstName) + FirstLetter(tech.value.lastName));
      if letters == "" then Some("?") else Some(letters)
  }

  /** A technician with a first name is shown by that name's upper-cased first letter. */
  lemma InitialsOfNamedTechnician(first: string, last: string)
    requires first != ""
    ensures TechInitials(Some(Technician(Some(first), Some(last)))).value[0] == UpperChar(first[0])
  {
    var l := FirstLetter(Some(first)) + FirstLetter(Some(last));
    assert l[0] == first[0];
  }

  /** The block colour for each status; an unknown status falls back to grey. */
  const StatusColors: map<string, string> := map[
    "nouveau" := "bg-blue-500 border-blue-600",
    "planifie" := "bg-amber-500 border-amber-600",
    "en_cours" := "bg-orange-500 border-orange-600",
    "termine" := "bg-emerald-500 border-emerald-600",
    "ready_to_bill" := "bg-amber-400 border-amber-500",
    "billed" := "bg-violet-500 border-violet-600",
    "annule" := "bg-gray-400 border-gray-500"]

  function StatusColor(status: string): (c: string)
    ensures status in StatusColors ==> c == StatusColors[status]
    ensures status !in StatusColors ==> c == "bg-gray-500 border-gray-600"
  {
    if status in StatusColors then StatusColors[status] else "bg-gray-500 border-gray-600"
  }
}
