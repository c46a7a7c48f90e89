# ChatIQ widget: a verified model of its state machine

`public/widget.js` is the ChatIQ embeddable chat widget: one script that mounts a
launcher button and a chat panel on a host page. Beneath its markup, styles and DOM
wiring sits a small single-threaded state machine. Every event handler runs to
completion and changes a handful of variables:

- whether the panel is open;
- the typing indicator;
- the unread count with its badge and the launcher's pulse;
- the staged attachment with its preview;
- the drag-and-drop counter with its overlay;
- the composer text;
- the append-only message history;
- the sound flag and the theme;
- the `localStorage` entries for the visitor id, the sound flag, the theme and the per-site draft.

This project models that state machine in Dafny and proves what each handler does to it.

- `wrappers.dfy` (`Wrappers`): `Option`.
- `jsstring.dfy` (`JsString`): the JavaScript string built-ins the widget relies on.
  - `String.prototype.trim` is a scan over the ECMAScript WhiteSpace and LineTerminator code points.
  - `startsWith`.
  - The decimal text of a non-negative integer, with a parser as its partner.
- `format.dfy` (`Format`): the badge label, capped at "9+", and `formatFileSize`.
  - The unit choice and the exact " B" text.
  - The one-decimal `toFixed(1)` text for KB and MB. Dividing by 1024 or 2^20 is exact in binary64 for any file size below 2^53, so that text is the nearest tenth, rounding up on a tie. The model states it in integers.
- `composer.dfy` (`Composer`): the emoji picker's splice of the composer text at the selection, and where the caret ends up.
- `storage.dfy` (`Storage`): `localStorage` as a map.
  - The widget's four keys are a datatype. Their string names are proved distinct, so a map keyed by the datatype is the string-keyed storage.
  - Reading and generating the visitor id.
  - The sound flag's round trip.
  - The site-scoped draft.
- `widget.dfy` (`ChatWidget`): the class `Widget`, which holds the state variables as fields. Its methods are the handlers and each one:
  - names in `modifies` only the fields it may change;
  - states the new value of each field it may change;
  - keeps the invariant parts over those fields (`BadgeValid`, `DragValid`, `StagingValid`, `PrefsValid`, together `Valid`).

  The invariant says:
  - the badge is visible exactly when the unread count is positive, and then shows `BadgeLabel` of it;
  - the pulse implies a visible badge on a closed widget;
  - the overlay is up exactly while the drag counter is positive;
  - the preview is shown exactly while a file is staged, and that file is at most 10 MiB;
  - the sound flag and the visitor id agree with storage;
  - the `dark` class follows the theme.

  `Mount` is the script's start.

Inputs that the browser supplies become method parameters:
- the timestamp `now`;
- the object URL of an image;
- the random part of a new visitor id;
- the system colour-scheme preference.

The simulated bot reply runs on timers in the source. Here it is three step methods, run in order: `ShowTyping`, `ReplyWithCannedMessage`, `OfferCannedQuickReplies`.

A click inside the widget runs the clicked control's handler and then bubbles to the shadow root, which hides the emoji picker. Here that is the control's method followed by `DismissEmojiPicker`. The exceptions are the sound and emoji buttons, which stop the click at the button (public/widget.js:1698 and 1751), and clicks inside the picker, which the shadow-root listener skips (1757). After those, `DismissEmojiPicker` does not follow, so a click on the emoji button opens the picker. So sending by the button, choosing a quick reply or pressing the launcher also closes the picker, although `SendMessage`, `SelectQuickReply` and `ToggleWidget` on their own leave it as it was.

In three places the model follows the code where a reader might expect otherwise:
- `addMessage` has no empty-text check, so an empty text is appended. The public API's `sendMessage` goes straight to `addMessage` (`ApiSendMessage`), so an empty message can be recorded that way.
- The theme is written to storage by `setTheme`, but it is never read back at start-up. `getThemePreference` looks only at the configuration.
- A click on a quick reply does not always send the suggestion as shown. The suggestion is written into a double-quoted `data-text` attribute through `escapeHtml`, which escapes `&`, `<` and `>` but not `"`. So the text read back, and sent, is the suggestion up to its first double quote (`SuggestionText`): `Say "hi"` sends `Say`. A suggestion passed to the public `showQuickReplies` can also add attributes to its button this way.

## Model

| member | source | states |
|---|---|---|
| JsString.SkipStartSpec | public/widget.js:2087 | the front scan of `trim` passes over white space only and stops on a non-white-space character or at the end |
| JsString.SkipEndSpec | public/widget.js:2087 | the back scan of `trim` passes over white space only and stops just after a non-white-space character or at the front bound |
| JsString.TrimSpec | public/widget.js:2087 | `Trim(s)`, the model of `s.trim()`, is a slice of `s` that begins and ends with non-white-space; everything before and after it in `s` is white space |
| JsString.TrimEmptyIffBlank | public/widget.js:2087-2088 | the trimmed text is empty if and only if every character is white space, which is the send guard's "no text" |
| JsString.NonBlankIsNonEmpty | public/widget.js:1934 | text whose trim is non-empty is non-empty and not blank |
| JsString.TrimIdempotent | public/widget.js:2087 | trimming trimmed text changes nothing |
| JsString.DecimalString | public/widget.js:1817 | the decimal text of a number is non-empty, all digits, has no leading zero, and is one digit exactly below ten |
| JsString.ParseDecimalString | public/widget.js:1817 | the decimal text of `n` reads back as `n` |
| JsString.DecimalStringInjective | public/widget.js:1817 | different numbers get different decimal texts |
| Format.BadgeLabelSpec | public/widget.js:1899-1901 | `BadgeLabel(count)` reads "9+" if and only if the count is above nine; otherwise it is one digit that reads back as the count |
| Format.BadgeLabelDistinguishesBelowCap | public/widget.js:1901 | counts 1 to 9 get pairwise different labels; all counts above nine get the same one |
| Format.SizeUnitOf | public/widget.js:1816-1820 | bytes exactly below 1024, MB exactly from 1024*1024 on, KB in between |
| Format.SizeUnitMonotone | public/widget.js:1816-1820 | a larger file never gets a smaller unit |
| Format.TenthsNearest | public/widget.js:1818-1819 | `Tenths(bytes, scale)`, the tenths printed, is the nearest tenth of bytes/1024 or bytes/2^20, the larger on a tie |
| Format.FixedOneDecodes | public/widget.js:1818-1819 | `FixedOne(n)`, the `toFixed(1)` text, is digits without a leading zero, a point and one digit, and reads back as the `n` tenths it was made from |
| Format.FileSizeLabelDecodes | public/widget.js:1816-1820 | `FormatFileSize(bytes)` ends in its unit; before it, the B label is decimal digits without a leading zero that read back as the exact byte count, and the KB/MB label is digits without a leading zero, a point and one digit that read back as the nearest tenth of the size |
| Format.StagedFileLabelAtMostTenMegabytes | public/widget.js:1784-1791 | a file that passes the 10 MiB check never shows more than 10.0 MB |
| Composer.InsertAtSelection | public/widget.js:1737-1741 | the text before the selection is kept, the emoji follows it, then the text after the selection; the caret lands right after the emoji |
| Composer.RemovingEmojiUndoesInsert | public/widget.js:1737-1741 | cutting the inserted emoji out leaves the text minus its selection, and the original text when nothing was selected |
| Composer.InsertLength | public/widget.js:1737-1741 | the text grows by the emoji's length and shrinks by the selection's |
| Storage.KeyNameInjective | public/widget.js:1857 | different keys have different storage names (`KeyName`, the strings used at lines 39, 52, 1857 and 2131): no two sites share a draft and no draft overwrites the visitor id, sound or theme entry |
| Storage.SoundFlagRoundTrip | public/widget.js:39 | the flag `String(enabled)` that the sound button stores is read back by `SoundEnabledIn` (sound is on unless the stored text is "false") as `enabled` |
| Storage.ResolveVisitorId | public/widget.js:51-61 | the id is never empty; a stored non-empty id is returned with storage unchanged; otherwise "v_" plus the generated part is returned and stored |
| Storage.VisitorIdStable | public/widget.js:51-61 | resolving again on the resulting storage returns the same id and writes nothing, whatever would be generated |
| Storage.ClearedStorageGivesNewId | public/widget.js:55-58 | on empty storage, different generated parts give different ids |
| Storage.StoredDraft | public/widget.js:1863-1866 | a draft is restored exactly when the site's key holds a non-empty string, and then it is that string |
| Storage.DraftRoundTrip | public/widget.js:1857-1874 | a saved non-empty draft loads back; an empty or removed one loads as nothing; another site's draft is untouched either way |
| ChatWidget.SuggestionTextSpec | public/widget.js:2056-2077 | the text a suggestion button gives back is the part of the suggestion before its first double quote: a prefix without `"`, followed in the suggestion by `"` or by nothing |
| ChatWidget.SuggestionWithoutQuoteIsKept | public/widget.js:2067 | a suggestion without a double quote is given back whole |
| ChatWidget.QuotedSuggestionIsCut | public/widget.js:2067 | the suggestion `Say "hi"` is given back as `Say ` |
| ChatWidget.AttachmentOf | public/widget.js:2089-2097 | the attachment keeps the file's name and formatted size; it is an image, with the object URL, exactly when the MIME type starts with "image/" |
| ChatWidget.OutgoingText | public/widget.js:2099 | the sent text is never empty: the trimmed input when there is one, otherwise the file label |
| ChatWidget.Outgoing | public/widget.js:2088-2099 | the entry sent is a user message with that text, carrying an attachment exactly when a file is staged |
| ChatWidget.ToneFor | public/widget.js:2044-2051 | a notification exactly for a bot message while closed; the send tone exactly for a user message |
| ChatWidget.ThemePreference | public/widget.js:66-72 | "light" when no theme or an empty one is configured; the configured theme when it is neither empty nor "auto"; for "auto", "dark" when the system prefers dark and "light" otherwise |
| ChatWidget.ToggledTheme | public/widget.js:2135-2137 | "dark" from "light" and "light" from any other theme; the result always differs from the current theme |
| ChatWidget.ToggleThemeTwice | public/widget.js:2135-2137 | toggling twice from "light" or "dark" returns to it |
| ChatWidget.Widget.constructor | public/widget.js:39-74 | a mounted widget satisfies the invariant and `Initial`: closed, not typing, zero unread, no badge or pulse, no drag, no staged file, an empty composer with send disabled, the welcome card shown, no history, suggestions, tones or alerts; its visitor id and storage are those `getVisitorId` resolves, sound is read from storage and the theme is `getThemePreference`'s |
| ChatWidget.Widget.PlayTone | public/widget.js:130-131 | a tone is recorded exactly when sound is enabled |
| ChatWidget.Widget.UpdateBadge | public/widget.js:1897-1909 | sets the unread count; the badge is visible if and only if the count is positive and then shows the capped label; the pulse starts only when closed; a count of zero or less clears badge and pulse |
| ChatWidget.Widget.SaveDraft | public/widget.js:1859-1861 | the composer text is stored under the site's draft key and nothing else in storage changes |
| ChatWidget.Widget.LoadDraft | public/widget.js:1863-1870 | a non-empty stored draft becomes the composer text, with the send button disabled exactly when it is blank; otherwise the composer is unchanged |
| ChatWidget.Widget.ClearDraft | public/widget.js:1872-1874 | only the site's draft key is removed, and the invariant is kept |
| ChatWidget.Widget.TypeInput | public/widget.js:1882-1886 | the new text is in the composer, send is disabled exactly when it is blank, and it is saved as the draft |
| ChatWidget.Widget.OpenWidget | public/widget.js:1912-1924 | no change at all when already open; otherwise open, zero unread, no badge, no pulse, and the stored draft restored if non-empty |
| ChatWidget.Widget.CloseWidget | public/widget.js:1926-1939 | no change at all when already closed; otherwise closed with the emoji picker hidden, and the draft written exactly when the trimmed text is non-empty |
| ChatWidget.Widget.ToggleWidget | public/widget.js:1941-1943 | flips `isOpen`, with exactly the effects of `CloseWidget` or `OpenWidget` |
| ChatWidget.Widget.PressEscape | public/widget.js:2144-2149 | Escape closes an open widget and hides the picker; on a closed widget it changes nothing |
| ChatWidget.Widget.StartChat | public/widget.js:1691-1695 | the welcome card goes |
| ChatWidget.Widget.ShowTyping | public/widget.js:1946-1971 | the indicator is on; a second call changes nothing |
| ChatWidget.Widget.HideTyping | public/widget.js:1973-1977 | the indicator is off |
| ChatWidget.Widget.AddMessage | public/widget.js:1985-2053 | exactly one entry is appended after the earlier ones; typing stops; a bot message while closed raises the unread count by exactly one; every other message leaves the badge alone; the tone follows `ToneFor` |
| ChatWidget.Widget.ApiSendMessage | public/widget.js:2173 | the API appends a user entry as given, even with empty text; typing stops and the welcome card goes; the unread count, badge and pulse stay as they were; the send tone plays when sound is on |
| ChatWidget.Widget.CloseThenReopen | public/widget.js:1912-1939 | closing with non-blank text and reopening gives back the same composer text through the stored draft, with send enabled; the unread count is zero, badge and pulse are off, the picker is hidden, and the store differs only by that draft |
| ChatWidget.Widget.ShowQuickReplies | public/widget.js:2063-2072 | one more group of suggestions after the existing ones |
| ChatWidget.Widget.SendMessage | public/widget.js:2086-2104 | sends if and only if the trimmed input is non-empty or a file is staged; when it does not send, nothing changes; when it does, `Deliver`'s effects follow |
| ChatWidget.Widget.Deliver | public/widget.js:2088-2104 | one user entry with the outgoing text and the staged file's attachment; then an empty composer with send disabled, no draft, no staged file, badge untouched |
| ChatWidget.Widget.ResetComposer | public/widget.js:2100-2104 | empty composer, send disabled, the site's draft removed, no staged file |
| ChatWidget.Widget.ReplyWithCannedMessage | public/widget.js:2113 | the canned bot answer is appended and typing stops; the tone is `ToneFor` a bot message; while open the badge is untouched; while closed the unread count rises by one, with the badge and pulse `UpdateBadge` gives that count |
| ChatWidget.Widget.OfferCannedQuickReplies | public/widget.js:2116-2123 | the four canned suggestions are offered as one new group |
| ChatWidget.Widget.SelectQuickReply | public/widget.js:2074-2082 | the text the button gives back (`SuggestionText`) becomes the input and is sent through the send guard, with all of `SendMessage`'s effects when sent and no other change when not; that group is removed and the other groups keep their order |
| ChatWidget.Widget.HandleFileSelect | public/widget.js:1781-1808 | no file: nothing changes; over 10 MiB: the alert is raised and the staged file and its preview are kept; otherwise the file is staged and previewed with its name and formatted size |
| ChatWidget.Widget.ClearFileUpload | public/widget.js:1810-1814 | no staged file and no preview |
| ChatWidget.Widget.DragEnter | public/widget.js:1825-1831 | the counter rises by one; the overlay appears when it reaches one; overlay up exactly while the counter is positive |
| ChatWidget.Widget.DragLeave | public/widget.js:1833-1839 | the counter falls by one; the overlay goes when it reaches zero; overlay up exactly while the counter is positive |
| ChatWidget.Widget.Drop | public/widget.js:1845-1854 | the counter is reset and the overlay hidden; the dropped file goes through the same size check as the file picker, with the same effects on the staged file, preview and alerts |
| ChatWidget.Widget.ToggleEmojiPicker | public/widget.js:1750-1753 | the picker's visibility flips |
| ChatWidget.Widget.DismissEmojiPicker | public/widget.js:1756-1766 | a click elsewhere hides the picker |
| ChatWidget.Widget.InsertEmoji | public/widget.js:1733-1748 | the composer gets `InsertAtSelection`'s text and caret; send is disabled exactly when the text is blank; the picker closes |
| ChatWidget.Widget.ToggleSound | public/widget.js:1697-1706 | the flag flips and is stored so that reading storage gives the new flag; a confirmation tone only when turned on |
| ChatWidget.Widget.SetTheme | public/widget.js:2129-2133 | the theme is set and stored, and the dark class is on exactly for "dark" |
| ChatWidget.Widget.ToggleTheme | public/widget.js:2135-2137 | the theme becomes `ToggledTheme` of the old one, stored, with the dark class following it |
| ChatWidget.Widget.GetVisitorId | public/widget.js:51-61 | on a mounted widget it returns the visitor id resolved at start-up and leaves storage as it is |
| ChatWidget.Mount | public/widget.js:42-47 | nothing is mounted without a non-empty site id; otherwise a fresh widget with the invariant in the constructor's `Initial` state |

## Left out

- DOM, CSS and HTML are reduced to the flags and texts that the handlers set. This covers the templates, the shadow root, `scrollToBottom`, `autoResize`, `escapeHtml` and the typing element.
- `formatTime` is locale formatting. Entries carry the timestamp `now` as a parameter.
- Web Audio is left out: `playTone`'s oscillators and the `sounds` table. A tone is a value appended to `tones` when sound is on. `playSound` from the API is `PlayTone`.
- `hexToHSL` and `setAccentColor` are floating-point colour maths.
- `FileReader`, the image thumbnail and `URL.createObjectURL` are left out. The object URL is a parameter of `SendMessage`.
- `alert` is modelled as the `alerts` sequence. `matchMedia` is the `prefersDark` parameter.
- `Math.random` and `Date.now` are left out. The random and time part of a new visitor id is the parameter `generated`.
- Timers are left out. The reply's three steps and `simulateMessage`'s steps (`ShowTyping`, `AddMessage`, `ShowQuickReplies`) are separate methods that a caller runs in order; their delays are not modelled. So is the 200 ms timer that `closeWidget` starts (public/widget.js:1936-1938). In the source, that timer removes the panel's `open` class even if the widget was reopened within those 200 ms. The panel is then hidden while `isOpen` is true, and the next launcher click closes the widget instead of opening it. The model's `isOpen` follows the variable and cannot show a hidden panel.
- The system colour-scheme listener for a configured "auto" theme is not modelled separately. It calls `SetTheme` with "dark" or "light".
- The emoji list and its search filter are UI content.
- `API_URL` and the console logging are left out.
- `localStorage` exceptions such as quota and privacy mode are left out. Storage is a total map.
- Lengths are counted in Unicode scalar values, while JavaScript counts UTF-16 code units. So the caret after an emoji outside the BMP is one position in the model but two in the browser.
- `ChatWidget.Widget.UpdateBadge`: the count is an integer. The public `setUnreadCount` could pass a fractional number or a non-number, and the badge would print it as JavaScript does.
- `ChatWidget.Widget.SelectQuickReply`: of the HTML parser's handling of the `data-text` attribute, only the cut at the first double quote is modelled; its newline normalisation (CR and CR LF become LF) and its replacement of NUL characters are not.
- Senders are `User` or `Bot`. The source's `from` is any string, and a sender other than "user" or "bot" would play no tone.
