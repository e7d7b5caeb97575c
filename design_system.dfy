/**
 * The readiness zones of lib/designSystem.ts: a three-band classifier on the
 * score, the fixed per-zone lookups that the screens display, and the
 * one-line insight shown on the home screen.
 */
module DesignSystem {
  import opened Wrappers

  /** `ReadinessZone`. */
  datatype Zone = Green | Yellow | Red

  /** Lowest score of the GREEN band. */
  const GreenFrom: real := 70.0
  /** Lowest score of the YELLOW band. */
  const YellowFrom: real := 40.0

  /** Position of a zone in the order RED < YELLOW < GREEN. */
  function Rank(z: Zone): nat
  {
    match z
    case Red => 0
    case Yellow => 1
    case Green => 2
  }

  /** `zoneFromScore`: each band includes its lower bound. */
  function ZoneFromScore(score: real): (z: Zone)
    ensures z == Green <==> score >= 70.0
    ensures z == Yellow <==> 40.0 <= score < 70.0
    ensures z == Red <==> score < 40.0
  {
    if score >= GreenFrom then Green
    else if score >= YellowFrom then Yellow
    else Red
  }

  /** Each band includes its lower edge and stops just below the next band's. */
  lemma ZoneBoundaries()
    ensures ZoneFromScore(70.0) == Green
    ensures ZoneFromScore(69.0) == Yellow
    ensures ZoneFromScore(40.0) == Yellow
    ensures ZoneFromScore(39.0) == Red
  {
  }

  /** A higher score never falls in a lower zone. */
  lemma ZoneMonotone(s1: real, s2: real)
    requires s1 <= s2
    ensures Rank(ZoneFromScore(s1)) <= Rank(ZoneFromScore(s2))
  {
  }

  /** `zoneLabel`: each label belongs to exactly one zone. */
  function ZoneLabel(z: Zone): (name: string)
    ensures name == "Peak Ready" <==> z == Green
    ensures name == "Manage Load" <==> z == Yellow
    ensures name == "Recovery Focus" <==> z == Red
  {
    match z
    case Green => "Peak Ready"
    case Yellow => "Manage Load"
    case Red => "Recovery Focus"
  }

  /** `zoneEmoji`: fire, high voltage and ice cube, each belonging to exactly one zone. */
  function ZoneEmoji(z: Zone): (emoji: string)
    ensures emoji == "\U{1F525}" <==> z == Green
    ensures emoji == "\U{26A1}" <==> z == Yellow
    ensures emoji == "\U{1F9CA}" <==> z == Red
  {
    match z
    case Green => "\U{1F525}"
    case Yellow => "\U{26A1}"
    case Red => "\U{1F9CA}"
  }

  /** The neon colour token of a zone. */
  function NeonColour(z: Zone): string
  {
    match z
    case Green => "neon-lime"
    case Yellow => "neon-amber"
    case Red => "neon-rose"
  }

  /**
   * The shape of a pill class for the colour token `colour`: a border in that
   * colour first, and its text class `text-<colour>` last after a space.
   */
  predicate PillShaped(classes: string, colour: string)
  {
    && "border-" + colour <= classes
    && |classes| > |colour| + 6
    && classes[|classes| - |colour| - 5..] == "text-" + colour
    && classes[|classes| - |colour| - 6] == ' '
  }

  /** A class list of the pill template has the pill shape for its colour. */
  lemma PillTemplateShaped(colour: string)
    ensures PillShaped("border-" + colour + "/50 bg-" + colour + "/20 text-" + colour, colour)
  {
    var classes := "border-" + colour + "/50 bg-" + colour + "/20 text-" + colour;
    assert classes == ("border-" + colour) + ("/50 bg-" + colour + "/20 text-" + colour);
    assert "/20 text-" == "/20" + " " + "text-";
    assert classes == ("border-" + colour + "/50 bg-" + colour + "/20") + (" " + ("text-" + colour));
  }

  /**
   * `zonePillClass`: a half-opaque border and a faint background in the zone's
   * neon colour, then the zone's text colour. `zonePillClass`'s three class
   * lists are this one template with the colour token filled in.
   */
  function ZonePillClass(z: Zone): (classes: string)
    ensures PillShaped(classes, NeonColour(z))
  {
    var colour := NeonColour(z);
    PillTemplateShaped(colour);
    "border-" + colour + "/50 bg-" + colour + "/20 text-" + colour
  }

  /** The text class is the last class of the pill class: both use one colour token. */
  lemma TextClassEndsPillClass(z: Zone)
    ensures |ZoneTextClass(z)| < |ZonePillClass(z)|
    ensures ZonePillClass(z)[|ZonePillClass(z)| - |ZoneTextClass(z)|..] == ZoneTextClass(z)
    ensures ZonePillClass(z)[|ZonePillClass(z)| - |ZoneTextClass(z)| - 1] == ' '
  {
    assert PillShaped(ZonePillClass(z), NeonColour(z));
  }

  /** `zoneTextClass`: text in the zone's neon colour. */
  function ZoneTextClass(z: Zone): (classes: string)
    ensures classes == "text-" + NeonColour(z)
  {
    match z
    case Green => "text-neon-lime"
    case Yellow => "text-neon-amber"
    case Red => "text-neon-rose"
  }

  /** Distinct zones get distinct labels and distinct emoji, none of them empty. */
  lemma LabelsAndEmojiDistinguishZones(z1: Zone, z2: Zone)
    ensures ZoneLabel(z1) != "" && ZoneEmoji(z1) != ""
    ensures ZoneLabel(z1) == ZoneLabel(z2) <==> z1 == z2
    ensures ZoneEmoji(z1) == ZoneEmoji(z2) <==> z1 == z2
  {
  }

  const NoMetricsInsight: string :=
    "No metrics logged today. Add a quick check-in to generate your readiness signal."
  const GreenInsight: string :=
    "Central nervous system and tissue load look balanced. Green light for quality work."
  const YellowInsight: string :=
    "Moderate fatigue detected. Keep intensity controlled and bias recovery between sessions."
  const RedInsight: string :=
    "Recovery debt is high. Prioritize sleep, hydration, and lower training load today."

  /** The insight sentence belonging to each zone. */
  function ZoneInsight(z: Zone): string
  {
    match z
    case Green => GreenInsight
    case Yellow => YellowInsight
    case Red => RedInsight
  }

  /**
   * `quickInsight`: a missing score gives the no-metrics message; otherwise the
   * message is chosen by the same bands as `zoneFromScore`.
   */
  function QuickInsight(score: Option<real>): (msg: string)
    ensures score.None? ==> msg == NoMetricsInsight
    ensures score.Some? ==> msg == ZoneInsight(ZoneFromScore(score.value))
  {
    match score
    case None => NoMetricsInsight
    case Some(s) =>
      if s >= 70.0 then GreenInsight
      else if s >= 40.0 then YellowInsight
      else RedInsight
  }

  /** The four insights are pairwise different, so the message determines the band. */
  lemma InsightDeterminesZone(s1: real, s2: real)
    ensures QuickInsight(Some(s1)) != QuickInsight(None)
    ensures QuickInsight(Some(s1)) == QuickInsight(Some(s2)) <==> ZoneFromScore(s1) == ZoneFromScore(s2)
  {
  }
}
