/**
 * Helpers of the mission-control dashboard: the width of an RGB sensor
 * bar, the default for a missing colour channel, and the colour a zone
 * name is shown in.
 */
module Dashboard {
  import opened Wrappers
  import opened Text

  /** Full scale of one colour channel. */
  const ChannelMax: real := 255.0

  /** `Math.min(100, Math.max(0, (value / 255) * 100))`: the bar width in percent. */
  function BarWidth(value: real): (w: real)
    ensures 0.0 <= w <= 100.0
    ensures value <= 0.0 ==> w == 0.0
    ensures value >= ChannelMax ==> w == 100.0
    ensures 0.0 <= value <= ChannelMax ==> w == value / ChannelMax * 100.0
  {
    var scaled := value / ChannelMax * 100.0;
    var low := if scaled > 0.0 then scaled else 0.0;
    if low < 100.0 then low else 100.0
  }

  /** A larger reading never gives a narrower bar. */
  lemma BarWidthMonotone(a: real, b: real)
    requires a <= b
    ensures BarWidth(a) <= BarWidth(b)
  {
  }

  /**
   * `telemetry.sensors?.rgb?.r || 0`: the reading, or 0 when the channel is
   * missing. (A present reading of 0 is falsy too and also gives 0.)
   */
  function ChannelValue(reading: Option<real>): (v: real)
    ensures reading.None? ==> v == 0.0
    ensures reading.Some? ==> v == reading.value
  {
    if reading.None? || reading.value == 0.0 then 0.0 else reading.value
  }

  /** A missing channel shows as an empty bar. */
  lemma MissingChannelIsEmptyBar()
    ensures BarWidth(ChannelValue(None)) == 0.0
  {
  }

  const White := "#fff"
  const NeonRed := "var(--neon-red)"
  const NeonGreen := "var(--neon-green)"
  const NeonBlue := "var(--neon-blue)"

  /** `getZoneColor(zone)`: checked in the order Red, Green, Blue. */
  function ZoneColor(zone: Option<string>): (color: string)
  {
    if zone.None? || zone.value == "" then White
    else if Includes(zone.value, "Red") then NeonRed
    else if Includes(zone.value, "Green") then NeonGreen
    else if Includes(zone.value, "Blue") then NeonBlue
    else White
  }

  /**
   * Each colour in terms of the zone name alone: red whenever "Red" occurs,
   * green when "Green" occurs but not "Red", blue when only "Blue" occurs,
   * and white for a missing or empty zone or one naming none of the three.
   */
  lemma ZoneColorSpec(zone: Option<string>)
    ensures ZoneColor(zone) == NeonRed <==> zone.Some? && Includes(zone.value, "Red")
    ensures ZoneColor(zone) == NeonGreen <==>
              zone.Some? && !Includes(zone.value, "Red") && Includes(zone.value, "Green")
    ensures ZoneColor(zone) == NeonBlue <==>
              zone.Some? && !Includes(zone.value, "Red") && !Includes(zone.value, "Green") && Includes(zone.value, "Blue")
    ensures ZoneColor(zone) == White <==>
              zone.None? || !(Includes(zone.value, "Red") || Includes(zone.value, "Green") || Includes(zone.value, "Blue"))
  {
    assert NeonRed != White && NeonGreen != White && NeonBlue != White;
    assert NeonRed[11] != NeonGreen[11] && NeonRed[11] != NeonBlue[11] && NeonGreen[11] != NeonBlue[11];
    if zone.Some? && zone.value == "" {
      assert !OccursAt("", "Red", 0) && !OccursAt("", "Green", 0) && !OccursAt("", "Blue", 0);
    }
  }

  /** A pattern whose first character is absent from `s` does not occur in it. */
  lemma AbsentFirstChar(s: string, pat: string)
    requires |pat| > 0 && pat[0] !in s
    ensures !Includes(s, pat)
  {
    forall i | 0 <= i <= |s| - |pat| ensures !OccursAt(s, pat, i) {
      assert s[i..i + |pat|][0] == s[i];
    }
  }

  /** A zone without the capitals R, G and B names no colour and shows white. */
  lemma UncolouredZoneIsWhite(z: string)
    requires 'R' !in z && 'G' !in z && 'B' !in z
    ensures ZoneColor(Some(z)) == White
  {
    AbsentFirstChar(z, "Red");
    AbsentFirstChar(z, "Green");
    AbsentFirstChar(z, "Blue");
  }

  /** Matching is case-sensitive: "red zone" names no colour. */
  lemma LowerCaseZoneIsWhite()
    ensures ZoneColor(Some("red zone")) == White
  {
    assert 'R' !in "red zone" && 'G' !in "red zone" && 'B' !in "red zone";
    UncolouredZoneIsWhite("red zone");
  }

  /** The coloured zone names the backend assigns show in their own colour. */
  lemma BackendColouredZones()
    ensures ZoneColor(Some("Red Zone")) == NeonRed
    ensures ZoneColor(Some("Green Zone")) == NeonGreen
    ensures ZoneColor(Some("Blue Zone")) == NeonBlue
  {
    assert OccursAt("Red Zone", "Red", 0);
    AbsentFirstChar("Green Zone", "Red");
    assert OccursAt("Green Zone", "Green", 0);
    AbsentFirstChar("Blue Zone", "Red");
    AbsentFirstChar("Blue Zone", "Green");
    assert OccursAt("Blue Zone", "Blue", 0);
  }

  /** The other zone names the backend assigns show in white. */
  lemma BackendNeutralZones()
    ensures ZoneColor(Some("Start")) == White
    ensures ZoneColor(Some("Center")) == White
    ensures ZoneColor(Some("Unknown")) == White
  {
    assert 'R' !in "Start" && 'G' !in "Start" && 'B' !in "Start";
    UncolouredZoneIsWhite("Start");
    assert 'R' !in "Center" && 'G' !in "Center" && 'B' !in "Center";
    UncolouredZoneIsWhite("Center");
    assert 'R' !in "Unknown" && 'G' !in "Unknown" && 'B' !in "Unknown";
    UncolouredZoneIsWhite("Unknown");
  }

  /**
   * `telemetry.sensors?.zone || "NO SIGNAL"`: the zone display is never
   * blank, shows a non-empty zone name as it is, and shows anything but the
   * placeholder only when that is the zone's name.
   */
  function ZoneText(zone: Option<string>): (t: string)
    ensures t != ""
    ensures zone.Some? && zone.value != "" ==> t == zone.value
    ensures t != "NO SIGNAL" ==> zone == Some(t)
  {
    if zone.None? || zone.value == "" then "NO SIGNAL" else zone.value
  }

  /** Whenever the display reads "NO SIGNAL" for lack of a zone, it is white. */
  lemma NoSignalIsWhite(zone: Option<string>)
    requires zone.None? || zone.value == ""
    ensures ZoneText(zone) == "NO SIGNAL" && ZoneColor(zone) == White
  {
  }

  /** A zone naming two colours takes the first in the order Red, Green, Blue. */
  lemma MixedZoneIsRed()
    ensures ZoneColor(Some("Green Red")) == NeonRed
  {
    assert OccursAt("Green Red", "Red", 6);
  }
}
