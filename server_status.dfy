/**
 * The server's own status endpoints (`server/src/server.rs`): `/status`
 * reports "running", the uptime in days, hours and minutes, and the
 * version; `/health` answers "OK". Times are milliseconds; the clock
 * reading is an input.
 */
module ServerStatus {
  import opened Text

  const MsPerMinute: int := 60000
  const MsPerHour: int := 3600000
  const MsPerDay: int := 86400000

  /** The state the server starts with: when it started, and its version. */
  datatype ServerState = ServerState(startTime: int, version: string)

  /** The body of `/status`. */
  datatype Status = Status(status: string, uptime: string, version: string)

  /** Integer division rounding toward zero, as Rust's `/` and `chrono`'s `num_*` do. */
  function TruncDiv(a: int, d: int): (q: int)
    requires d > 0
    ensures a >= 0 ==> q >= 0 && d * q <= a < d * q + d
    ensures a < 0 ==> q <= 0 && d * q - d < a <= d * q
  {
    if a >= 0 then a / d else -((-a) / d)
  }

  /** Rust's `%`: the remainder has the sign of the dividend. */
  function TruncMod(a: int, d: int): (r: int)
    requires d > 0
    ensures a == d * TruncDiv(a, d) + r
    ensures a >= 0 ==> 0 <= r < d
    ensures a < 0 ==> -d < r <= 0
  {
    a - d * TruncDiv(a, d)
  }

  /** `num_minutes`, `num_hours` and `num_days` of a duration. */
  function Minutes(ms: int): int { TruncDiv(ms, MsPerMinute) }
  function Hours(ms: int): int { TruncDiv(ms, MsPerHour) }
  function Days(ms: int): int { TruncDiv(ms, MsPerDay) }

  /** The three numbers `get_status` prints: days, hours past the day, minutes past the hour. */
  function UptimeParts(ms: int): (parts: (int, int, int))
    ensures parts.0 == Days(ms)
    ensures parts.1 == Hours(ms) - 24 * Days(ms)
    ensures parts.2 == Minutes(ms) - 60 * Hours(ms)
  {
    UnitsNest(ms);
    (Days(ms), TruncMod(Hours(ms), 24), TruncMod(Minutes(ms), 60))
  }

  /** The uptime as `get_status` formats it: whole days, then the hours and minutes left over. */
  function Uptime(ms: int): (r: string)
    ensures r == IntToString(Days(ms)) + " days, " + IntToString(Hours(ms) - 24 * Days(ms)) + " hours, "
                 + IntToString(Minutes(ms) - 60 * Hours(ms)) + " minutes"
  {
    var (d, h, m) := UptimeParts(ms);
    IntToString(d) + " days, " + IntToString(h) + " hours, " + IntToString(m) + " minutes"
  }

  /** Hours are whole sixties of minutes, days whole twenty-fours of hours, each rounded toward zero. */
  lemma {:induction false} UnitsNest(ms: int)
    ensures Hours(ms) == TruncDiv(Minutes(ms), 60)
    ensures Days(ms) == TruncDiv(Hours(ms), 24)
  {
    var m, h, d := Minutes(ms), Hours(ms), Days(ms);
    if ms >= 0 {
      assert 60 * h <= m < 60 * h + 60;
      assert 24 * d <= h < 24 * d + 24;
    } else {
      assert 60 * h - 60 < m <= 60 * h;
      assert 24 * d - 24 < h <= 24 * d;
    }
  }

  /**
   * The printed parts add back up to the whole number of minutes, for any
   * duration; hours stay below 24 and minutes below 60 in size, and none
   * is negative when the uptime is not.
   */
  lemma UptimeAddsUp(ms: int)
    ensures var (d, h, m) := UptimeParts(ms);
      d * 1440 + h * 60 + m == Minutes(ms)
      && -24 < h < 24 && -60 < m < 60
      && (ms >= 0 ==> d >= 0 && 0 <= h && 0 <= m)
  {
    UnitsNest(ms);
  }

  /** `ServerState::new`, given the clock and the package version. */
  function NewServerState(now: int, version: string): (s: ServerState)
    ensures s.startTime == now && s.version == version
  {
    ServerState(now, version)
  }

  /** `/status`: always "running", the uptime since start, and the version it was built with. */
  function GetStatus(s: ServerState, now: int): (r: Status)
    ensures r.status == "running" && r.version == s.version
    ensures r.uptime == Uptime(now - s.startTime)
  {
    Status("running", Uptime(now - s.startTime), s.version)
  }

  /** `/health`. */
  function HealthCheck(): (r: string)
    ensures r == "OK"
  {
    "OK"
  }

  /** A server up for a day, two hours and three minutes and some seconds says so. */
  lemma DayTwoHoursThreeMinutes()
    ensures UptimeParts(1 * MsPerDay + 2 * MsPerHour + 3 * MsPerMinute + 4000) == (1, 2, 3)
  {
  }
}
