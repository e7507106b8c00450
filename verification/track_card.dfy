/** The `m:ss` duration formatter of the track card. */
module TrackCard {
  import opened Js
  import opened Decimal

  /** `s.padStart(width, fill)` for a one-character filler. */
  function PadStart(s: string, width: nat, fill: char): (r: string)
    ensures |r| == if |s| >= width then |s| else width
    ensures r[|r| - |s|..] == s
    ensures forall i :: 0 <= i < |r| - |s| ==> r[i] == fill
    decreases width - |s|
  {
    if |s| >= width then s else PadStart([fill] + s, width, fill)
  }

  /** The two-character seconds field denotes the seconds it was made from. */
  lemma PaddedSeconds(s: nat)
    requires s < 60
    ensures |PadStart(NatToString(s), 2, '0')| == 2
    ensures AllDigits(PadStart(NatToString(s), 2, '0'))
    ensures DigitsValue(PadStart(NatToString(s), 2, '0')) == s
  {
    var secs := NatToString(s);
    DigitsValueOfNatToString(s);
    if |secs| == 1 {
      assert PadStart(secs, 2, '0') == "0" + secs;
      LeadingZero(secs);
    }
  }

  lemma ColonSplit(minutes: string, secs: string)
    requires |secs| == 2
    ensures var r := minutes + ":" + secs;
      r[|r| - 3] == ':' && r[..|r| - 3] == minutes && r[|r| - 2..] == secs
  {
  }

  /**
   * `formatDuration(seconds)`: whole minutes, a colon, then the remaining
   * seconds as exactly two digits.
   */
  function FormatDuration(seconds: nat): (r: string)
    ensures |r| >= 4 && r[|r| - 3] == ':'
    ensures AllDigits(r[..|r| - 3]) && DigitsValue(r[..|r| - 3]) == seconds / 60
    ensures AllDigits(r[|r| - 2..]) && DigitsValue(r[|r| - 2..]) == seconds % 60 < 60
  {
    DigitsValueOfNatToString(seconds / 60);
    PaddedSeconds(seconds % 60);
    ColonSplit(NatToString(seconds / 60), PadStart(NatToString(seconds % 60), 2, '0'));
    NatToString(seconds / 60) + ":" + PadStart(NatToString(seconds % 60), 2, '0')
  }

  /** Reads `m:ss` text back into seconds; absent for text of any other shape. */
  function ParseDuration(t: string): Option<nat> {
    if |t| >= 4 && t[|t| - 3] == ':' && AllDigits(t[..|t| - 3]) && AllDigits(t[|t| - 2..])
    then Some(60 * DigitsValue(t[..|t| - 3]) + DigitsValue(t[|t| - 2..]))
    else None
  }

  /** The formatted text always reads back to the input: `60 * minutes + seconds`. */
  lemma FormatDurationRoundTrip(seconds: nat)
    ensures ParseDuration(FormatDuration(seconds)) == Some(seconds)
  {
  }

  /** Sixty-five seconds are shown as `1:05`. */
  lemma FormatDurationExample()
    ensures FormatDuration(65) == "1:05"
  {
    assert FormatDuration(65) == NatToString(65 / 60) + ":" + PadStart(NatToString(65 % 60), 2, '0');
    assert 65 / 60 == 1 && 65 % 60 == 5;
    assert NatToString(1) == "1";
    assert NatToString(5) == "5";
    assert PadStart("5", 2, '0') == "05";
  }
}
