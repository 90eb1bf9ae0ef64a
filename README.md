# EmojiSync in Dafny

EmojiSync watches a camera, classifies the dominant facial emotion of each
frame and shows it as an emoji. A producer thread (`camera_loop`) reads
frames, builds a score dictionary for each one with the face/emotion library,
resolves it to one label and pushes that label to a viewer. The viewer shows
the latest label. There are three viewers: a Tk window fed through a one-slot
queue, a web view fed through a shared `_Api` object that its page polls, and
a legacy Tk viewer that renders the glyph into an image.

This project models that glue logic and proves what it promises:

- `Resolver` models label resolution: the first key with the largest score,
  or `"neutral"` when that score is 0.
- `Detector` models the fixed seven-key score dictionary.
- `Producer` models the stop/push loop and `main`'s backend choice and teardown.
- `TkViewer`, `WebViewer` and `LegacyViewer` model each viewer's state machine.
- `Glyphs` holds the emoji tables. `Colors` holds the shared colour formatting.
- `Bsky` models the username and credential guards of the live-status update.

The camera, the classifier, the file system and the window toolkit stay
outside the model as oracles. Each one becomes a parameter:

- a frame sequence;
- a face-found flag with prediction vectors;
- a set of existing paths;
- a text bounding box;
- "the user closed the window" and "destroy failed" flags.

Notes on how the code behaves, which the model follows:

- A camera failure is not caught in `camera_loop`. The exception ends the
  producer thread, and the stop flag is not set (`src/emojisync/main.py:17-26`).
  After a camera failure the window therefore stays open on the last glyph
  until the user closes it: `CameraLoop` ends in `CameraFailed`, and nothing
  is set.
- The score dictionary is a Python dict, which iterates in insertion order.
  Ties between equal maxima therefore go to the earliest emotion in
  `anger, disgust, fear, happiness, sadness, surprise, neutral`.
- `DEFAULT_EMOJI_MAP` in `src/emotion_viewer.py` does not hold emoji. It holds
  their UTF-8 bytes read back as Windows-1252 text, for example `"ðŸ˜ "` for
  anger. The neutral entry has also lost its last byte.
  `Glyphs.LegacyDefaultEmojiMap` keeps those characters exactly.
- Python's `max` on an empty dict raises ValueError. `Resolver.Resolve`
  returns `None` there. The detector never builds an empty dict.

## Model

| member | source | states |
|---|---|---|
| Scores.Get | src/emojisync/main.py:23 | `extracted_emo[label]` finds a value exactly when the key is one of the dict's keys |
| Scores.GetAt | src/emojisync/main.py:23 | in a dict without repeated keys, looking up entry i's key yields entry i's score |
| Resolver.MaxIndex | src/emojisync/main.py:22 | `max(d, key=d.get)` lands on an entry whose score is at least every other score, with every earlier entry strictly smaller: the first maximum |
| Resolver.FirstMaxUnique | src/emojisync/main.py:22 | the first maximum is unique, so the tie-break is deterministic |
| Resolver.Resolve | src/emojisync/main.py:22-24 | the result is absent only for an empty dict (where `max` raises), and is otherwise a key of the dict or "neutral" |
| Resolver.ResolveFirstMax | src/emojisync/main.py:22-24 | the label is the key of the first maximal entry, or "neutral" when that maximum is 0 |
| Resolver.ZeroMaxIsNeutral | src/emojisync/main.py:23-24 | a largest score of 0 gives "neutral", whichever key the search picked |
| Resolver.AllZeroIsNeutral | src/emojisync/main.py:23-24 | the all-zero map resolves to "neutral" |
| Resolver.UniqueMaxWins | src/emojisync/main.py:22 | a strictly largest non-zero score gives that entry's key |
| Resolver.TieGoesToEarlierKey | src/emojisync/main.py:22 | between two entries tied at a non-zero maximum, the later key is never the label |
| Detector.EmotionsDistinct | src/detector.py:24-32 | the seven emotion names are pairwise different |
| Detector.FrameEmotion | src/detector.py:34-53 | entry i is keyed `emotions[i]`, the keys are distinct, and the scores are the first face's prediction or all 0 when no face was found |
| Detector.FrameEmotionSize | src/detector.py:47-53 | the dictionary has exactly 7 entries, with keys in the order anger … neutral |
| Detector.NoFaceResolvesNeutral | src/detector.py:51-53 | a frame without a face resolves to "neutral" |
| Detector.OtherFacesIgnored | src/detector.py:47-50 | two detections with the same first face give the same dictionary, whatever the other faces are |
| Detector.FaceResolvesToEarliestMax | src/detector.py:47-50 | with a face, the label is the earliest emotion in the fixed order with the largest predicted score, or "neutral" if that score is 0 |
| Glyphs.SelectEmojiMap | src/emojisync/viewers/emotion_viewer_tkinter.py:37 | `emoji_map or DEFAULT_EMOJI_MAP`: a missing or empty map falls back to the default; any other map is kept |
| Glyphs.Glyph | src/emojisync/viewers/emotion_viewer_tkinter.py:81 | `emoji_map.get(label, label)` (also emotion_viewer_webview.py:141 and emotion_viewer.py:106): a registered label shows a glyph from the table, any other label shows itself |
| Glyphs.DefaultKeysAreEmotions | src/emojisync/viewers/emotion_viewer_tkinter.py:21-29 | both default tables register exactly the seven emotion keys |
| Glyphs.DefaultGlyphsDistinct | src/emojisync/viewers/emotion_viewer_webview.py:22-30 | under the default table each emotion shows as one character, and different emotions show differently |
| Glyphs.UnmappedLabelShownRaw | src/emojisync/viewers/emotion_viewer_tkinter.py:81 | a label missing from the table is displayed as its own text |
| Colors.HexDigits | src/emojisync/viewers/emotion_viewer_tkinter.py:32 | lower-case hex digits; one digit below 16, at most two below 256 |
| Colors.ParseHexDigits | src/emojisync/viewers/emotion_viewer_tkinter.py:32 | reading the digits back gives the number |
| Colors.Format02x | src/emojisync/viewers/emotion_viewer_tkinter.py:32 | `:02x` gives at least two characters, a leading '-' iff the value is negative, and exactly two hex digits iff the value is in 0..255 |
| Colors.ChannelRoundTrip | src/emojisync/viewers/emotion_viewer_webview.py:32-33 | a channel in 0..255 reads back from its two digits |
| Colors.RgbToHex | src/emojisync/viewers/emotion_viewer_tkinter.py:31-32 | the result starts with '#' and has at least 7 characters |
| Colors.RgbToHexInRange | src/emotion_viewer.py:120-121 | for channels in 0..255: 7 characters, lower-case hex after '#', two digits per channel that read back as the channels |
| Colors.RgbToHexInjective | src/emojisync/viewers/emotion_viewer_webview.py:32-33 | distinct in-range colours give distinct strings |
| Colors.RgbToHexOutOfRange | src/emotion_viewer.py:120-121 | a channel outside 0..255 makes the string longer than 7 characters or puts a non-hex character in it |
| TkViewer.EmotionViewer.constructor | src/emojisync/viewers/emotion_viewer_tkinter.py:35-40 | empty slot, running, blank label; the emoji table is the given one or the default |
| TkViewer.EmotionViewer.Push | src/emojisync/viewers/emotion_viewer_tkinter.py:56-67 | while running, the slot holds exactly the pushed label and any unread one is dropped; after close nothing changes; the slot never holds more than one label |
| TkViewer.EmotionViewer.Poll | src/emojisync/viewers/emotion_viewer_tkinter.py:69-84 | on a running viewer the slot is emptied, and the text becomes the glyph of the last label taken (unchanged if the slot was empty), and the poll is rescheduled; on a closed viewer nothing changes and nothing is rescheduled |
| TkViewer.EmotionViewer.Close | src/emojisync/viewers/emotion_viewer_tkinter.py:90-98 | afterwards the viewer is not running and the window has been torn down exactly once; a second call changes nothing |
| TkViewer.LatestWins | src/emojisync/viewers/emotion_viewer_tkinter.py:56-84 | push a, push b, poll shows b's glyph; a second poll keeps it |
| TkViewer.ClosedViewerIsInert | src/emojisync/viewers/emotion_viewer_tkinter.py:56-98 | after close (twice), a push and a poll leave the last shown glyph in place, and the returned reschedule answer of that poll is false |
| WebViewer.Api.constructor | src/emojisync/viewers/emotion_viewer_webview.py:36-39 | text "" and running |
| WebViewer.Api.SetText | src/emojisync/viewers/emotion_viewer_webview.py:41-43 | the text becomes the given one; the running flag is untouched |
| WebViewer.Api.GetText | src/emojisync/viewers/emotion_viewer_webview.py:45-47 | returns the most recently set text, or "" if none was set |
| WebViewer.Api.Stop | src/emojisync/viewers/emotion_viewer_webview.py:49-51 | running becomes false; the text is kept |
| WebViewer.Api.IsRunning | src/emojisync/viewers/emotion_viewer_webview.py:53-55 | reports the running flag |
| WebViewer.EmotionViewer.constructor | src/emojisync/viewers/emotion_viewer_webview.py:58-69 | a fresh running api with no text set; the emoji table is the given one or the default |
| WebViewer.EmotionViewer.Push | src/emojisync/viewers/emotion_viewer_webview.py:138-142 | while running, the stored text becomes the label's glyph (not the raw label); after stop it is unchanged; running is untouched |
| WebViewer.EmotionViewer.OnClose | src/emojisync/viewers/emotion_viewer_webview.py:71-72 | stops the api and keeps its text |
| WebViewer.EmotionViewer.HandleWindowEvent | src/emojisync/viewers/emotion_viewer_webview.py:68-69 | both the closing and the closed event stop the api |
| WebViewer.EmotionViewer.Close | src/emojisync/viewers/emotion_viewer_webview.py:147-152 | always stops the api; a failing destroy leaves the window as it was and is swallowed, so close can be repeated |
| WebViewer.EmojiElement.constructor | src/emojisync/viewers/emotion_viewer_webview.py:115-116 | the element is empty and `last` is null |
| WebViewer.EmojiElement.SetText | src/emojisync/viewers/emotion_viewer_webview.py:118-123 | afterwards the element shows the text; it is rewritten only when the text differs from the last one shown |
| WebViewer.EmojiElement.PollTick | src/emojisync/viewers/emotion_viewer_webview.py:125-131 | one interval tick shows the api's current text, rewriting only on change |
| WebViewer.PushThenTicks | src/emojisync/viewers/emotion_viewer_webview.py:118-142 | a pushed label reaches the page as its glyph at the next tick; a further tick does not rewrite the element |
| WebViewer.PushAfterWindowClose | src/emojisync/viewers/emotion_viewer_webview.py:138-142 | after either window event, a later push leaves the stored glyph unchanged |
| LegacyViewer.LoadFont | src/emotion_viewer.py:61-79 | a non-empty explicit path is opened, and fails (OSError) exactly when it is not among the paths the font loader resolves (`existing`); otherwise the first existing candidate in listed order; the default font exactly when none exists |
| LegacyViewer.ImageSize | src/emotion_viewer.py:87-92 | the canvas is the text box's extent plus the padding on each side, so a well-formed box gives at least 2×padding each way; where the text lands is `InkPlacement` |
| LegacyViewer.InkPlacement | src/emotion_viewer.py:81-101 | the image is the box's extent plus 2×padding each way; the drawn text has margins padding+left and padding−left (likewise for top), and lies inside the image exactly when −padding ≤ left ≤ padding and −padding ≤ top ≤ padding |
| LegacyViewer.EmotionViewer.constructor | src/emotion_viewer.py:37-55 | running, no image yet, the given font and padding, the emoji table is the given one or the legacy default |
| LegacyViewer.Open | src/emotion_viewer.py:37-44 | no viewer exactly when the explicit font path is missing (the OSError of `__init__`); otherwise a running viewer whose font is the one `_load_font` selects from the default candidates |
| LegacyViewer.EmotionViewer.HandleClose | src/emotion_viewer.py:57-59 | stops the viewer and destroys the root once |
| LegacyViewer.EmotionViewer.Show | src/emotion_viewer.py:103-112 | closed: returns false and renders nothing; running: shows the rendered glyph (raw label if unmapped) at the padded size, and returns the running flag after events, false if the window was closed meanwhile |
| LegacyViewer.EmotionViewer.Close | src/emotion_viewer.py:114-117 | idempotent; with HandleClose the root is destroyed exactly once overall |
| Bsky.FullMatchRepeatIff | src/emojisync/streamingstatus/bsky.py:12-14 | the matcher for `[a-zA-Z0-9_]{lo,hi}` accepts exactly the strings of lo..hi class characters |
| Bsky.ValidUsernameIff | src/emojisync/streamingstatus/bsky.py:12-14 | a username is valid iff it has 4..25 characters, each an ASCII letter, digit or underscore |
| Bsky.RejectedUsernames | src/emojisync/streamingstatus/bsky.py:13-14 | 3 or 26 characters, a space, '-' or a non-ASCII character are rejected |
| Bsky.IsValidUsername | src/emojisync/streamingstatus/bsky.py:12-14 | the definition: a full match of `[a-zA-Z0-9_]{4,25}`; its meaning is proved by `ValidUsernameIff` and `FullMatchRepeatIff` |
| Bsky.PrepareClient | src/emojisync/streamingstatus/bsky.py:17-26 | as written (`~all`): a client it returns is logged in with exactly the two environment values; that it never returns one is `PrepareClientAlwaysFails` |
| Bsky.UpdateLiveStatus | src/emojisync/streamingstatus/bsky.py:35-49 | as written: an invalid username raises; reaching the post step means a client logged in with the environment's credentials; that a valid username always skips is `ValidUsernameAlwaysSkips` |
| Bsky.PrepareClientIntended | src/emojisync/streamingstatus/bsky.py:17-26 | with `not all`: a client it returns is logged in with exactly the two environment values; when it fails is `IntendedPrepareClient` |
| Bsky.UpdateLiveStatusIntended | src/emojisync/streamingstatus/bsky.py:35-49 | with `not all`: an invalid username raises; reaching the post step means a client logged in with the environment's credentials; `IntendedOutcome` gives the full case split |
| Bsky.BitNotAlwaysTruthy | src/emojisync/streamingstatus/bsky.py:46 | `~all(...)` is -1 or -2, and so truthy |
| Bsky.PrepareClientAlwaysFails | src/emojisync/streamingstatus/bsky.py:17-23 | as written, `_prepare_client` raises ValueError whatever the environment holds |
| Bsky.InvalidUsernameFirst | src/emojisync/streamingstatus/bsky.py:42-44 | an invalid username raises ValueError before any credential is looked at, whatever the environment |
| Bsky.ValidUsernameAlwaysSkips | src/emojisync/streamingstatus/bsky.py:42-48 | as written, a valid username always takes the skip branch |
| Bsky.IntendedOutcome | src/emojisync/streamingstatus/bsky.py:42-49 | with `not all(...)`, a valid username reaches the post step with the environment's credentials when both are set, and skips otherwise |
| Bsky.IntendedPrepareClient | src/emojisync/streamingstatus/bsky.py:20-24 | with `not all(...)`, `_prepare_client` fails exactly when a credential is unset or empty |
| Producer.CameraLoop | src/emojisync/main.py:12-26 | every frame before the first stop observation is pushed exactly once, in order, as its resolved label; the frame where stop is seen and all later ones are not; the loop ends at that frame, on the camera's failure, or waiting for the next frame |
| Producer.CameraFailsAfterFive | src/emojisync/main.py:17-26 | a camera that fails after five frames gives five pushes, then the failure ends the loop |
| Producer.HappyFace | src/emojisync/main.py:21-26 | a face scored 0.9 for happiness and 0 elsewhere is pushed as "happiness", shown as 😄 by the default table |
| Producer.FrameLabelIsEmotion | src/emojisync/main.py:21-24 | every pushed label is one of the seven emotions |
| Producer.FrameLabel | src/emojisync/main.py:21-24 | the definition: resolve the frame's score map, pushing "neutral" for a zero maximum; its properties are `FrameLabelIsEmotion`, `HappyFace` and `Detector.FaceResolvesToEarliestMax` |
| Producer.ParseBackend | src/emojisync/main.py:31-36 | "tk" and "web" choose their backend; anything else is the ValueError case |
| Producer.StopEvent.constructor | src/emojisync/main.py:29 | a new stop event is not set |
| Producer.StopEvent.Set | src/emojisync/main.py:46 | afterwards the event is set |
| Producer.Launch | src/emojisync/main.py:28-47 | the stop event is created first; a bad backend then raises before any viewer exists, the event not set; otherwise the viewer of the chosen backend is built, the producer started and run entered, and then, whether run returned or raised, the returned stop event is set and the returned viewer is closed (Tk: stopped and destroyed once; web: api stopped, window destroyed unless destroy failed), stop being set once and close happening once, as the last two steps |
| Producer.ShippedBackendIsWeb | src/emojisync/main.py:8 | the shipped `VIEWER_BACKEND` selects the web viewer |

## Findings

| source | as written | input that shows it | evidently intended | confidence | as-written member | corrected member |
|---|---|---|---|---|---|---|
| src/emojisync/streamingstatus/bsky.py:46 | `if ~all([...])`: `~True` is -2 and `~False` is -1, both truthy | any valid username, e.g. "streamer_01", with BSKY_USER_NAME and BSKY_PASSWORD both set: the status is skipped | skip only when a credential is missing, `if not all([...])` | high; not executed | Bsky.UpdateLiveStatus (shown by Bsky.ValidUsernameAlwaysSkips) | Bsky.UpdateLiveStatusIntended (proved by Bsky.IntendedOutcome) |
| src/emojisync/streamingstatus/bsky.py:21 | `if ~all(login_info)`: always truthy, so the ValueError is always raised | both credentials set: `_prepare_client` still raises | raise only when a credential is missing, `if not all(login_info)` | high; not executed | Bsky.PrepareClient (shown by Bsky.PrepareClientAlwaysFails) | Bsky.PrepareClientIntended (proved by Bsky.IntendedPrepareClient) |

## Left out

- Producer.Launch: `th.start()` and `viewer.run()` are recorded as steps only; the producer thread is not run inside it (its behaviour is `CameraLoop`), and the viewer's event loop is reduced to whether it returns or raises.
- Threads, `threading.Event`, `threading.Lock` and `Queue` locking: each method call is one atomic step. The stop flag the producer reads is a sequence of observations, one per frame. Interleavings are not modelled.
- Camera capture (`src/camera.py`, `src/emojisync/devices/camera.py`): OpenCV, `time.sleep` pacing and resizing are left out. The frame source is a finite observed sequence of detector outputs, plus whether the next read fails. An infinite stream is represented by its observed prefix, so the loop may end in `AwaitingFrame`.
- The face/emotion library's internals (`detect_faces`, `detect_landmarks`, `detect_emotions`): a face-found flag and per-face prediction vectors stand for their output.
- Floating point and NaN: scores are `real`. Only their ordering and the test against 0 matter.
- Tk and webview event loops: `run()` of all viewers, `mainloop`, `after`, `webview.start` and `create_window` are left out. Window titles, colours, fonts, padding and layout are left out too, and so is the HTML/CSS text of `_build_html`. Only the page's `setText` guard and its polling tick are modelled.
- The viewer capability is not an interface here: `Producer.Launch` builds the concrete viewer class, and `Producer.CameraLoop` returns the labels it would push instead of calling a viewer.
- PIL rendering: `textbbox` is an input box. The shown image is modelled by its text and size. `ImageTk` and the drawing itself are left out.
- LegacyViewer.LoadFont: a candidate font file that exists but that `truetype` cannot load (a corrupt file, an unreadable one) is not modelled, and neither is the font size. `existing` stands for the paths the font loader resolves: Pillow retries a path it cannot open by its base name in the system font directories, and that search is folded into `existing` rather than modelled.
- LegacyViewer.EmotionViewer.HandleClose: requires a live window, because Tk delivers the window-close event only while the root exists.
- WebViewer.EmojiElement.PollTick: a failing `get_text` call, which the page's script catches and ignores, is not modelled.
- Bluesky networking: `Client()`, `login`, `upload_blob`, `put_record`, the embed and status records, `datetime.now` and the function-attribute client cache of `_prepare_client` are left out. `ReachesPost` stands for getting past both guards to the post step, not for a post being made. Environment variables are inputs. `_prepare_blob_ref` uses an undefined name `client` (`bsky.py:31`) and is not modelled; it is called at `bsky.py:55`, so even with the guards corrected the run would stop there with a NameError before any post.
- The top-level `main.py` demo is not modelled. It imports a `CameraConfig` that `src/camera.py` does not define.
