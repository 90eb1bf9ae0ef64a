/**
 * The Tk viewer: a one-slot queue written by the producer and drained by a
 * periodic poll that sets the text of the window's label.
 */
module TkViewer {
  import opened Options
  import Glyphs

  /** `Queue(maxsize=1)`. */
  const MaxSize: nat := 1

  class EmotionViewer {
    const emojiMap: map<string, string>
    /** The contents of `_q`, oldest first. */
    var queue: seq<string>
    /** `_running`. */
    var running: bool
    /** The text of the Tk label. */
    var text: string
    /** How often the root window has been quit and destroyed. */
    var destroyCalls: nat

    /** The slot never holds more than one label; the window is torn down exactly when the viewer stops. */
    ghost predicate Valid()
      reads this
    {
      |queue| <= MaxSize && destroyCalls == if running then 0 else 1
    }

    /** `__init__`: empty slot, running, blank label. */
    constructor (given: Option<map<string, string>>)
      ensures Valid()
      ensures emojiMap == Glyphs.SelectEmojiMap(given, Glyphs.DefaultEmojiMap)
      ensures queue == [] && running && text == ""
    {
      emojiMap := Glyphs.SelectEmojiMap(given, Glyphs.DefaultEmojiMap);
      queue := [];
      running := true;
      text := "";
      destroyCalls := 0;
    }

    /**
     * `push`: while running, the pushed label replaces whatever the slot
     * held; after close nothing changes.
     */
    method Push(name: string)
      requires Valid()
      modifies this
      ensures Valid()
      ensures running == old(running) && text == old(text) && destroyCalls == old(destroyCalls)
      ensures queue == if old(running) then [name] else old(queue)
    {
      if !running {
        return;
      }
      if |queue| < MaxSize {
        queue := queue + [name];
      } else {
        // Full: take the unread label out (an empty queue is passed over) and put again.
        if |queue| > 0 {
          queue := queue[1..];
        }
        queue := queue + [name];
      }
    }

    /**
     * `_poll`: on a running viewer, drain the queue and show the glyph of the
     * last label taken, if any, then ask to be called again; on a closed
     * viewer do nothing and do not reschedule.
     */
    method Poll() returns (rescheduled: bool)
      requires Valid()
      modifies this
      ensures Valid()
      ensures running == old(running) && destroyCalls == old(destroyCalls)
      ensures rescheduled == old(running)
      ensures !old(running) ==> queue == old(queue) && text == old(text)
      ensures old(running) ==> queue == []
      ensures old(running) && old(queue) == [] ==> text == old(text)
      ensures old(running) && old(queue) != [] ==>
        text == Glyphs.Glyph(emojiMap, old(queue)[|old(queue)| - 1])
    {
      if !running {
        return false;
      }
      var latest: Option<string> := None;
      while true
        invariant |queue| <= |old(queue)| && queue == old(queue)[|old(queue)| - |queue|..]
        invariant running == old(running) && text == old(text) && destroyCalls == old(destroyCalls)
        invariant latest.None? <==> |queue| == |old(queue)|
        invariant latest.Some? ==> latest.value == old(queue)[|old(queue)| - |queue| - 1]
        decreases |queue|
      {
        if |queue| == 0 {
          break;  // Empty
        }
        latest := Some(queue[0]);
        queue := queue[1..];
      }
      if latest.Some? {
        text := Glyphs.Glyph(emojiMap, latest.value);
      }
      rescheduled := true;
    }

    /**
     * `close`, also bound to the window's close button: the first call stops
     * the viewer and tears the window down; later calls change nothing.
     */
    method Close()
      requires Valid()
      modifies this
      ensures Valid()
      ensures !running && destroyCalls == 1
      ensures queue == old(queue) && text == old(text)
      ensures !old(running) ==> destroyCalls == old(destroyCalls)
    {
      if !running {
        return;
      }
      running := false;
      // quit() and destroy(); a TclError from either is swallowed.
      destroyCalls := destroyCalls + 1;
    }
  }

  /**
   * Two pushes between polls: the first poll shows the glyph of the later
   * label, and a second poll finds the slot empty and keeps that text.
   */
  method LatestWins(first: string, second: string) returns (shown: string, shownAgain: string)
    ensures shown == Glyphs.Glyph(Glyphs.DefaultEmojiMap, second)
    ensures shownAgain == shown
  {
    var v := new EmotionViewer(None);
    v.Push(first);
    v.Push(second);
    var _ := v.Poll();
    shown := v.text;
    var _ := v.Poll();
    shownAgain := v.text;
  }

  /** After close, pushes and polls leave the display as it was. */
  method ClosedViewerIsInert(before: string, after: string) returns (shown: string, again: bool)
    ensures shown == Glyphs.Glyph(Glyphs.DefaultEmojiMap, before)
    ensures !again
  {
    var v := new EmotionViewer(None);
    v.Push(before);
    var _ := v.Poll();
    v.Close();
    v.Close();
    v.Push(after);
    again := v.Poll();
    shown := v.text;
  }
}
