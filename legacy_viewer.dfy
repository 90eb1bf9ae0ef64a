/**
 * The legacy viewer: renders the glyph of a label into an image and shows
 * it, pumping the Tk event loop itself from `show`.
 */
module LegacyViewer {
  import opened Options
  import Glyphs

  /** The font `_load_font` settles on. */
  datatype FontChoice = TrueType(path: string) | DefaultFont

  /** `_default_font_candidates`, searched in this order. */
  const DefaultFontCandidates: seq<string> := [
    "/usr/share/fonts/truetype/noto/NotoColorEmoji.ttf",
    "/usr/share/fonts/truetype/noto/NotoEmoji-Regular.ttf",
    "/usr/share/fonts/truetype/noto/NotoSansSymbols2-Regular.ttf",
    "/usr/share/fonts/truetype/dejavu/DejaVuSans.ttf"
  ]

  /**
   * What `_load_font` settles on, `None` standing for the OSError that
   * `truetype` raises for a missing file: a non-empty explicit path is opened
   * directly, and fails exactly when it does not exist; otherwise the first
   * candidate that exists is opened; otherwise the library's default font.
   */
  predicate FontSelection(fontPath: Option<string>, candidates: seq<string>, existing: set<string>,
                          f: Option<FontChoice>)
  {
    if fontPath.Some? && fontPath.value != "" then
      f == (if fontPath.value in existing then Some(TrueType(fontPath.value)) else None)
    else
      && f.Some?
      && (f.value.DefaultFont? <==> forall i :: 0 <= i < |candidates| ==> candidates[i] !in existing)
      && (f.value.TrueType? ==>
            exists i :: 0 <= i < |candidates| && candidates[i] == f.value.path && f.value.path in existing &&
              forall j :: 0 <= j < i ==> candidates[j] !in existing)
  }

  /** `_load_font`; `existing` is what the file system reports. */
  method LoadFont(fontPath: Option<string>, candidates: seq<string>, existing: set<string>)
    returns (f: Option<FontChoice>)
    ensures FontSelection(fontPath, candidates, existing, f)
  {
    if fontPath.Some? && fontPath.value != "" {
      if fontPath.value !in existing {
        return None;
      }
      return Some(TrueType(fontPath.value));
    }
    for i := 0 to |candidates|
      invariant forall j :: 0 <= j < i ==> candidates[j] !in existing
    {
      if candidates[i] in existing {
        return Some(TrueType(candidates[i]));
      }
    }
    return Some(DefaultFont);
  }

  /** `textbbox` of the text: left, top, right, bottom, relative to the drawing origin. */
  datatype BBox = BBox(left: int, top: int, right: int, bottom: int)

  datatype Size = Size(width: int, height: int)

  /** The size of the image `_render_text` creates: the box's extent plus the padding on each side. */
  function ImageSize(b: BBox, padding: int): (s: Size)
    ensures b.left <= b.right && b.top <= b.bottom ==> s.width >= 2 * padding && s.height >= 2 * padding
  {
    Size(b.right - b.left + padding * 2, b.bottom - b.top + padding * 2)
  }

  /**
   * The text is drawn at (padding, padding), so its ink spans
   * [padding + left, padding + right) across an image of the width above:
   * its margins are padding + left and padding - left (likewise vertically),
   * which are equal only when the box starts at the origin, and the ink stays
   * inside the image exactly when -padding <= left <= padding (and the same
   * for top).
   */
  lemma InkPlacement(b: BBox, padding: int)
    requires b.left <= b.right && b.top <= b.bottom
    ensures var s := ImageSize(b, padding);
      && s.width == (padding + b.left) + (b.right - b.left) + (padding - b.left)
      && s.height == (padding + b.top) + (b.bottom - b.top) + (padding - b.top)
      && (0 <= padding + b.left && padding + b.right <= s.width <==> -padding <= b.left <= padding)
      && (0 <= padding + b.top && padding + b.bottom <= s.height <==> -padding <= b.top <= padding)
  {
  }

  /** What the image label shows: the rendered text and the image's size. */
  datatype Rendered = Rendered(text: string, size: Size)

  class EmotionViewer {
    const emojiMap: map<string, string>
    const font: FontChoice
    const padding: int
    /** `_running`. */
    var running: bool
    /** How often the root window has been destroyed. */
    var destroyCalls: nat
    /** `_photo_image`. */
    var photo: Option<Rendered>

    /** The window is destroyed once, exactly when the viewer stops running. */
    ghost predicate Valid()
      reads this
    {
      destroyCalls == if running then 0 else 1
    }

    /** The state `__init__` leaves once the font `font` has been loaded. */
    constructor (given: Option<map<string, string>>, font: FontChoice, padding: int)
      ensures Valid() && running && photo == None
      ensures emojiMap == Glyphs.SelectEmojiMap(given, Glyphs.LegacyDefaultEmojiMap)
      ensures this.font == font && this.padding == padding
    {
      emojiMap := Glyphs.SelectEmojiMap(given, Glyphs.LegacyDefaultEmojiMap);
      this.font := font;
      this.padding := padding;
      running := true;
      destroyCalls := 0;
      photo := None;
    }

    /** `_handle_close`, run by Tk when the user closes the (live) window. */
    method HandleClose()
      requires Valid() && running
      modifies this
      ensures Valid() && !running && destroyCalls == old(destroyCalls) + 1 && photo == old(photo)
    {
      running := false;
      destroyCalls := destroyCalls + 1;
    }

    /**
     * `show`: on a closed viewer return false and render nothing. Otherwise
     * render the label's glyph (`textBox` is the font's box for it), let Tk
     * process its events (`userCloses`: the user closed the window meanwhile)
     * and return whether the viewer is still running.
     */
    method Show(name: string, textBox: BBox, userCloses: bool) returns (alive: bool)
      requires Valid()
      modifies this
      ensures Valid() && alive == running
      ensures !old(running) ==> !alive && photo == old(photo) && destroyCalls == old(destroyCalls)
      ensures old(running) ==>
        photo == Some(Rendered(Glyphs.Glyph(emojiMap, name), ImageSize(textBox, padding)))
      ensures old(running) ==> alive == !userCloses
    {
      if !running {
        return false;
      }
      var text := Glyphs.Glyph(emojiMap, name);
      photo := Some(Rendered(text, ImageSize(textBox, padding)));
      // update_idletasks() and update(): the window's close handler may run here.
      if userCloses {
        HandleClose();
      }
      alive := running;
    }

    /** `close`: idempotent; the root is destroyed only if it was still running. */
    method Close()
      requires Valid()
      modifies this
      ensures Valid() && !running && destroyCalls == 1 && photo == old(photo)
    {
      if running {
        running := false;
        destroyCalls := destroyCalls + 1;
      }
    }
  }

  /**
   * `EmotionViewer(config, emoji_map)`: the font is loaded first (`existing`
   * is the file system's answer), and when `truetype` raises there is no
   * viewer (`null`); otherwise a running viewer with that font.
   */
  method Open(given: Option<map<string, string>>, fontPath: Option<string>, padding: int,
              existing: set<string>) returns (v: EmotionViewer?)
    ensures v == null <==> fontPath.Some? && fontPath.value != "" && fontPath.value !in existing
    ensures v != null ==>
      && fresh(v) && v.Valid() && v.running && v.photo == None
      && v.emojiMap == Glyphs.SelectEmojiMap(given, Glyphs.LegacyDefaultEmojiMap)
      && v.padding == padding
      && FontSelection(fontPath, DefaultFontCandidates, existing, Some(v.font))
  {
    var f := LoadFont(fontPath, DefaultFontCandidates, existing);
    if f.None? {
      return null;
    }
    v := new EmotionViewer(given, f.value, padding);
  }
}
