/** The forecast icon (components/WeatherIcon.tsx): a fixed table from icon to emoji glyph, a
    fallback to the `unknown` glyph for a name the table lacks, and the accessible label derived
    from the icon's name. */
module WeatherIcon {
  import opened Wrappers
  import opened Text
  import opened Types

  /** The `iconMap` entry of each icon. Several icons share a glyph. */
  function Glyph(icon: IconType): (g: string)
    ensures g != []
  {
    match icon
    case Sunny => "\U{2600}\U{FE0F}"
    case Cloudy => "\U{2601}\U{FE0F}"
    case PartlyCloudyDay => "\U{26C5}"
    case PartlyCloudyNight => "\U{26C5}"
    case Rain => "\U{1F327}\U{FE0F}"
    case LightRain => "\U{1F326}\U{FE0F}"
    case HeavyRain => "\U{26C8}\U{FE0F}"
    case Snow => "\U{2744}\U{FE0F}"
    case LightSnow => "\U{1F328}\U{FE0F}"
    case HeavySnow => "\U{2603}\U{FE0F}"
    case Thunderstorm => "\U{26C8}\U{FE0F}"
    case Fog => "\U{1F32B}\U{FE0F}"
    case Mist => "\U{1F32B}\U{FE0F}"
    case Drizzle => "\U{1F4A7}"
    case Windy => "\U{1F4A8}"
    case Unknown => "\U{2753}"
  }

  /** The glyph rendered for an icon name: the table entry if there is one, else the `unknown`
      glyph (`iconMap[iconType] || iconMap['unknown']`). */
  function GlyphFor(name: string): (g: string)
    ensures g != []
    ensures IconFromName(name).Some? ==> g == Glyph(IconFromName(name).value)
    ensures IconFromName(name).None? ==> g == Glyph(Unknown)
  {
    match IconFromName(name)
    case Some(icon) => Glyph(icon)
    case None => Glyph(Unknown)
  }

  /** The `aria-label`: the name with its first hyphen, if any, turned into a space. */
  function AccessibleLabel(name: string): (aria: string)
    ensures |aria| == |name|
    ensures '-' !in name ==> aria == name
    ensures '-' in name ==>
              var k := FirstIndex(name, '-');
              aria[k] == ' ' && aria[..k] == name[..k] && aria[k + 1..] == name[k + 1..]
  {
    var aria := ReplaceFirst(name, '-', ' ');
    assert '-' !in name ==> aria == name;
    aria
  }

  // ---------------------------------------------------------------- properties

  /** Icons that share a glyph. */
  predicate Twins(a: IconType, b: IconType) {
    || (a == PartlyCloudyDay && b == PartlyCloudyNight) || (a == PartlyCloudyNight && b == PartlyCloudyDay)
    || (a == HeavyRain && b == Thunderstorm) || (a == Thunderstorm && b == HeavyRain)
    || (a == Fog && b == Mist) || (a == Mist && b == Fog)
  }

  /** The table covers every icon, so the fallback never replaces the glyph of a valid name. */
  lemma EveryIconHasGlyph(icon: IconType)
    ensures GlyphFor(IconName(icon)) == Glyph(icon)
  {
    IconNameRoundTrip(icon);
  }

  /** Two icons show the same glyph exactly when they are the same icon or one of the three
      twin pairs. */
  lemma GlyphsShared(a: IconType, b: IconType)
    ensures Glyph(a) == Glyph(b) <==> a == b || Twins(a, b)
  {
  }

  /** A name outside the enumeration shows the same glyph as `unknown`. */
  lemma FallbackIsUnknown(name: string)
    requires forall icon :: IconName(icon) != name
    ensures GlyphFor(name) == GlyphFor(IconName(Unknown))
  {
    IconNameRoundTrip(Unknown);
  }

  /** Only the first hyphen is replaced: whatever follows it, further hyphens included, is kept. */
  lemma {:induction false} LabelOfHyphenated(head: string, tail: string)
    requires '-' !in head
    ensures AccessibleLabel(head + "-" + tail) == head + " " + tail
  {
    var name := head + "-" + tail;
    var k := FirstIndex(name, '-');
    assert name[|head|] == '-';
    assert k == |head|;
    var aria := AccessibleLabel(name);
    assert name[..k] == head && name[k + 1..] == tail;
    assert aria == aria[..k] + [aria[k]] + aria[k + 1..];
  }

  /** `partly-cloudy-day` reads "partly cloudy-day". */
  lemma LabelPartlyCloudyDay()
    ensures AccessibleLabel(IconName(PartlyCloudyDay)) == "partly cloudy-day"
  {
    PartlyCloudyDayPieces();
    LabelOfHyphenated("partly", "cloudy-day");
  }

  lemma PartlyCloudyDayPieces()
    ensures '-' !in "partly"
    ensures IconName(PartlyCloudyDay) == "partly" + "-" + "cloudy-day"
    ensures "partly" + " " + "cloudy-day" == "partly cloudy-day"
  {
  }

  /** A name without a hyphen, such as `sunny`, is its own label. */
  lemma LabelSunny()
    ensures AccessibleLabel(IconName(Sunny)) == "sunny"
  {
  }
}
