/**
 * The emoji tables of the viewers and the lookup `emoji_map.get(label, label)`
 * that every viewer applies before displaying a label.
 */
module Glyphs {
  import opened Options
  import Detector

  /** `DEFAULT_EMOJI_MAP` of the Tk and web viewers. */
  const DefaultEmojiMap: map<string, string> := map[
    "anger" := "\U{1F620}",
    "disgust" := "\U{1F922}",
    "fear" := "\U{1F628}",
    "happiness" := "\U{1F604}",
    "sadness" := "\U{1F622}",
    "surprise" := "\U{1F632}",
    "neutral" := "\U{1F610}"
  ]

  /**
   * `DEFAULT_EMOJI_MAP` of the legacy viewer, character for character as that
   * file stores it: the UTF-8 bytes of the emoji read back as Windows-1252 text.
   */
  const LegacyDefaultEmojiMap: map<string, string> := map[
    "anger" := "\U{F0}\U{178}\U{2DC}\U{A0}",
    "disgust" := "\U{F0}\U{178}\U{A4}\U{A2}",
    "fear" := "\U{F0}\U{178}\U{2DC}\U{A8}",
    "happiness" := "\U{F0}\U{178}\U{2DC}\U{201E}",
    "sadness" := "\U{F0}\U{178}\U{2DC}\U{A2}",
    "surprise" := "\U{F0}\U{178}\U{2DC}\U{B2}",
    "neutral" := "\U{F0}\U{178}\U{2DC}"
  ]

  /** `emoji_map.get(label, label)`: the glyph, or the raw label when none is registered. */
  function Glyph(emojiMap: map<string, string>, name: string): (glyph: string)
    ensures name in emojiMap ==> glyph in emojiMap.Values
    ensures name !in emojiMap ==> glyph == name
  {
    if name in emojiMap then emojiMap[name] else name
  }

  /** `emoji_map or DEFAULT_EMOJI_MAP`: a missing or empty map is replaced by the default. */
  function SelectEmojiMap(given: Option<map<string, string>>, default: map<string, string>)
    : (m: map<string, string>)
    ensures given.None? || given.value == map[] ==> m == default
    ensures given.Some? && given.value != map[] ==> m == given.value
  {
    if given.Some? && |given.value| > 0 then given.value else default
  }

  /** Both default tables register exactly the seven emotions the detector scores. */
  lemma DefaultKeysAreEmotions()
    ensures forall e :: e in DefaultEmojiMap <==> e in Detector.Emotions
    ensures forall e :: e in LegacyDefaultEmojiMap <==> e in Detector.Emotions
  {
  }

  /**
   * Under the default table every emotion is shown as a single character of
   * its own, so the display tells the emotions apart.
   */
  lemma DefaultGlyphsDistinct(i: nat, j: nat)
    requires i < |Detector.Emotions| && j < |Detector.Emotions|
    ensures |Glyph(DefaultEmojiMap, Detector.Emotions[i])| == 1
    ensures i != j ==> Glyph(DefaultEmojiMap, Detector.Emotions[i])
                       != Glyph(DefaultEmojiMap, Detector.Emotions[j])
  {
  }

  /** A label the table does not register is displayed as its own text. */
  lemma UnmappedLabelShownRaw(emojiMap: map<string, string>, name: string)
    requires name !in emojiMap
    ensures Glyph(emojiMap, name) == name
  {
  }
}
