/**
 * The web viewer: an `_Api` object holding the text to show and a running
 * flag, written by `push` and read by the page's polling script.
 */
module WebViewer {
  import opened Options
  import Glyphs

  /** `_Api`. Every method is one step under the object's lock. */
  class Api {
    var text: string
    var running: bool
    /** Every string passed to `set_text`, oldest first. */
    ghost var history: seq<string>

    /** The text is the most recently set one, or "" before any. */
    ghost predicate Valid()
      reads this
    {
      text == if history == [] then "" else history[|history| - 1]
    }

    constructor ()
      ensures Valid() && history == [] && running
    {
      text := "";
      running := true;
      history := [];
    }

    method SetText(t: string)
      requires Valid()
      modifies this
      ensures Valid() && history == old(history) + [t] && running == old(running)
    {
      text := t;
      history := history + [t];
    }

    /** `get_text`: the latest string given to `set_text`, or "" if there was none. */
    method GetText() returns (t: string)
      requires Valid()
      ensures t == if history == [] then "" else history[|history| - 1]
    {
      t := text;
    }

    /** `stop`: running becomes false; nothing sets it back. */
    method Stop()
      requires Valid()
      modifies this
      ensures Valid() && !running && text == old(text) && history == old(history)
    {
      running := false;
    }

    method IsRunning() returns (b: bool)
      ensures b == running
    {
      b := running;
    }
  }

  /** The two window events the viewer subscribes `_on_close` to. */
  datatype WindowEvent = Closing | Closed

  class EmotionViewer {
    const emojiMap: map<string, string>
    const api: Api
    /** Whether `window.destroy()` has succeeded. */
    var windowDestroyed: bool

    ghost predicate Valid()
      reads this, api
    {
      api.Valid()
    }

    constructor (given: Option<map<string, string>>)
      ensures Valid() && fresh(api)
      ensures emojiMap == Glyphs.SelectEmojiMap(given, Glyphs.DefaultEmojiMap)
      ensures api.history == [] && api.running && !windowDestroyed
    {
      emojiMap := Glyphs.SelectEmojiMap(given, Glyphs.DefaultEmojiMap);
      api := new Api();
      windowDestroyed := false;
    }

    /** `push`: while running, store the glyph of the label (not the label); afterwards nothing. */
    method Push(name: string)
      requires Valid()
      modifies api
      ensures Valid() && api.running == old(api.running)
      ensures api.history == if old(api.running)
                             then old(api.history) + [Glyphs.Glyph(emojiMap, name)]
                             else old(api.history)
    {
      var alive := api.IsRunning();
      if !alive {
        return;
      }
      var glyph := Glyphs.Glyph(emojiMap, name);
      api.SetText(glyph);
    }

    /** `_on_close`. */
    method OnClose()
      requires Valid()
      modifies api
      ensures Valid() && !api.running && api.history == old(api.history)
    {
      api.Stop();
    }

    /** Both `events.closing` and `events.closed` are routed to `_on_close`. */
    method HandleWindowEvent(e: WindowEvent)
      requires Valid()
      modifies api
      ensures Valid() && !api.running && api.history == old(api.history)
    {
      match e
      case Closing => OnClose();
      case Closed => OnClose();
    }

    /**
     * `close`: always stops the api, then tries to destroy the window; a
     * failure of `destroy` (here `destroyFails`) is swallowed, so close may be
     * called any number of times.
     */
    method Close(destroyFails: bool)
      requires Valid()
      modifies this, api
      ensures Valid() && !api.running && api.history == old(api.history)
      ensures windowDestroyed == (old(windowDestroyed) || !destroyFails)
    {
      api.Stop();
      if !destroyFails {
        windowDestroyed := true;
      }
    }
  }

  /**
   * The page's `setText`: the element is rewritten only when the fetched
   * text differs from the last text written (`last` starts as null).
   */
  class EmojiElement {
    var textContent: string
    var last: Option<string>
    /** How many times `el.textContent` has been assigned. */
    var writes: nat

    ghost predicate Valid()
      reads this
    {
      last.Some? ==> textContent == last.value
    }

    constructor ()
      ensures Valid() && textContent == "" && last == None && writes == 0
    {
      textContent := "";
      last := None;
      writes := 0;
    }

    method SetText(t: string)
      requires Valid()
      modifies this
      ensures Valid() && textContent == t && last == Some(t)
      ensures writes == if old(last) == Some(t) then old(writes) else old(writes) + 1
    {
      if last != Some(t) {
        textContent := t;
        last := Some(t);
        writes := writes + 1;
      }
    }

    /** One tick of the page's `setInterval`: fetch the api's text and show it. */
    method PollTick(api: Api)
      requires Valid() && api.Valid()
      modifies this
      ensures Valid() && textContent == api.text && last == Some(api.text)
      ensures writes == if old(last) == Some(api.text) then old(writes) else old(writes) + 1
    {
      var t := api.GetText();
      SetText(t);
    }
  }

  /**
   * A push reaches the page at its next tick as the glyph; a tick that finds
   * the same text again does not rewrite the element.
   */
  method PushThenTicks(name: string) returns (shown: string, writes: nat)
    ensures shown == Glyphs.Glyph(Glyphs.DefaultEmojiMap, name)
    ensures writes == 1
  {
    var v := new EmotionViewer(None);
    var page := new EmojiElement();
    v.Push(name);
    page.PollTick(v.api);
    page.PollTick(v.api);
    shown, writes := page.textContent, page.writes;
  }

  /** After either window event a push no longer changes the stored text. */
  method PushAfterWindowClose(e: WindowEvent, before: string, after: string) returns (stored: string)
    ensures stored == Glyphs.Glyph(Glyphs.DefaultEmojiMap, before)
  {
    var v := new EmotionViewer(None);
    v.Push(before);
    v.HandleWindowEvent(e);
    v.Push(after);
    v.Close(true);
    stored := v.api.GetText();
  }
}
