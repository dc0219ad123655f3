/** The bottom player's `formatTime`: a position in whole seconds shown as `m:ss`. */
module TimeFormat {
  import opened JsValues

  /** `sec < 10 ? '0' + sec : sec` inside the template literal: seconds below ten get a
      leading zero. */
  function PadSeconds(sec: nat): (r: string)
    requires sec < 60
    ensures |r| == 2 && AllDigits(r) && ParseNat(r) == sec
  {
    ParseNatToString(sec);
    if sec < 10 then "0" + NatToString(sec) else NatToString(sec)
  }

  /** `formatTime(time)`: a falsy time prints `0:00`; otherwise the whole minutes, a colon
      and the remaining seconds on two digits. */
  function FormatTime(time: nat): (r: string)
    ensures |r| >= 4 && r[|r| - 3] == ':'
    ensures AllDigits(r[..|r| - 3]) && AllDigits(r[|r| - 2..])
    ensures time == 0 ==> r == "0:00"
  {
    if time == 0 then "0:00"
    else
      var r := NatToString(time / 60) + ":" + PadSeconds(time % 60);
      assert r[..|r| - 3] == NatToString(time / 60);
      assert r[|r| - 2..] == PadSeconds(time % 60);
      r
  }

  /** Reads an `m:ss` string back: the digits before the colon are minutes, the two after
      it seconds. */
  function ParseTime(s: string): Option<nat> {
    if |s| >= 4 && s[|s| - 3] == ':' && AllDigits(s[..|s| - 3]) && AllDigits(s[|s| - 2..]) then
      Some(60 * ParseNat(s[..|s| - 3]) + ParseNat(s[|s| - 2..]))
    else None
  }

  /** The minutes field is `floor(time / 60)` and the seconds field `time % 60`, a value
      below 60; together they give back the time. */
  lemma FormatTimeFields(time: nat)
    ensures var r := FormatTime(time);
            ParseNat(r[..|r| - 3]) == time / 60 &&
            ParseNat(r[|r| - 2..]) == time % 60 < 60 &&
            60 * (time / 60) + time % 60 == time
  {
    var r := FormatTime(time);
    if time == 0 {
      assert r[..|r| - 3] == "0" && r[|r| - 2..] == "00";
      assert ParseNat("0") == 0;
      assert ParseNat("00") == 0 by {
        assert "00"[..1] == "0";
      }
    } else {
      assert r[..|r| - 3] == NatToString(time / 60);
      assert r[|r| - 2..] == PadSeconds(time % 60);
      ParseNatToString(time / 60);
    }
  }

  /** `ParseTime` inverts `formatTime`. */
  lemma ParseFormatTime(time: nat)
    ensures ParseTime(FormatTime(time)) == Some(time)
  {
    FormatTimeFields(time);
  }

  /** Different positions are never shown with the same text. */
  lemma FormatTimeInjective(a: nat, b: nat)
    ensures FormatTime(a) == FormatTime(b) ==> a == b
  {
    ParseFormatTime(a);
    ParseFormatTime(b);
  }
}
