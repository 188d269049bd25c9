/**
 * Which `Scale:` and `Range:` header forms a PLAY reply carries (RTSPClientSession.go:238-273).
 * The floating-point values stay values (`real`); their `%f` / `%.3f` text is not modelled.
 */
module Play {

  import opened Wrappers

  /** The parsed `Range:` request header: NPT bounds and absolute-time (clock) bounds. */
  datatype RangeHeader = RangeHeader(rangeStart: real, rangeEnd: real, absStartTime: string, absEndTime: string)

  /** The four `Range:` reply forms: `clock=S-`, `clock=S-E`, `npt=S-` and `npt=S-E`. */
  datatype RangeLine =
    | ClockFrom(clockStart: string)
    | ClockSpan(clockStart: string, clockEnd: string)
    | NptFrom(nptStart: real)
    | NptSpan(nptStart: real, nptEnd: real)
  {
    predicate IsClock() { ClockFrom? || ClockSpan? }
  }

  /** The optional `Scale:` value and the `Range:` form of a PLAY reply. */
  datatype PlayHeaders = PlayHeaders(scale: Option<real>, range: RangeLine)

  /**
   * A `Scale:` line is emitted exactly when the request had one, echoing the requested value
   * (the within-session dispatcher always passes no subsession, so the scale is never clamped).
   * The clock form is emitted exactly when a `Range:` header was parsed, open-ended exactly when
   * it named no end time; otherwise the open `npt=start-` form is emitted exactly when the NPT
   * end is zero and the scale is not negative.
   */
  function ChoosePlayHeaders(scale: real, sawScale: bool, range: RangeHeader, sawRange: bool): (h: PlayHeaders)
    ensures h.scale.Some? <==> sawScale
    ensures h.scale.Some? ==> h.scale.value == scale
    ensures h.range.IsClock() <==> sawRange
    ensures h.range.ClockFrom? <==> sawRange && range.absEndTime == ""
    ensures h.range.IsClock() ==> h.range.clockStart == range.absStartTime
    ensures h.range.ClockSpan? ==> h.range.clockEnd == range.absEndTime
    ensures h.range.NptFrom? <==> !sawRange && range.rangeEnd == 0.0 && scale >= 0.0
    ensures !h.range.IsClock() ==> h.range.nptStart == range.rangeStart
    ensures h.range.NptSpan? ==> h.range.nptEnd == range.rangeEnd
  {
    var scaleHeader := if sawScale then Some(scale) else None;
    var rangeLine :=
      if sawRange then
        if range.absEndTime == "" then ClockFrom(range.absStartTime)
        else ClockSpan(range.absStartTime, range.absEndTime)
      else if range.rangeEnd == 0.0 && scale >= 0.0 then NptFrom(range.rangeStart)
      else NptSpan(range.rangeStart, range.rangeEnd);
    PlayHeaders(scaleHeader, rangeLine)
  }
}
