/** The clock record and the named screen breakpoints. */
module TimezoneTypes {
  import opened Wrappers

  /**
   * One clock: a city label (`label` in the source; `label` is a Dafny
   * keyword, hence `city`), an optional region (None is JavaScript's
   * `undefined`: the city table gives no region), an IANA zone id and the
   * coordinates used for sunrise and sunset.
   */
  datatype Timezone = Timezone(
    city: string,
    region: Option<string>,
    timezone: string,
    latitude: real,
    longitude: real)

  /** A clock is in the viewer's own zone when its zone id equals the local one. */
  predicate IsCurrentTimezone(t: Timezone, localZone: string) {
    t.timezone == localZone
  }

  /** The keys of the breakpoint table. */
  datatype Breakpoint = Mobile | Tablet | Desktop | LargeDesktop | UltraWide

  /** A CSS pixel length: the digits followed by `px`. */
  function Px(digits: string): (w: string)
    requires digits != []
    ensures |w| == |digits| + 2 && w[..|digits|] == digits && w[|digits|..] == "px"
  {
    digits + "px"
  }

  /** The digits of each breakpoint's minimum width, as the table writes them. */
  function BreakpointDigits(b: Breakpoint): (d: string)
    ensures 3 <= |d| <= 4
  {
    match b
    case Mobile => "576"
    case Tablet => "768"
    case Desktop => "1024"
    case LargeDesktop => "1440"
    case UltraWide => "1920"
  }

  /** The minimum width of each breakpoint, as the CSS length the table stores. */
  function BreakpointWidth(b: Breakpoint): (w: string)
    ensures |w| >= 3 && w[|w| - 2..] == "px"
  {
    Px(BreakpointDigits(b))
  }
}
