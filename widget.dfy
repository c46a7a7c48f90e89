/**
 * The chat widget's state machine (public/widget.js): the launcher and panel, the
 * unread badge, the typing indicator, the append-only message history, the staged
 * attachment and its drag-and-drop overlay, the composer text with its stored
 * draft, and the sound and theme preferences. The DOM is reduced to the flags and
 * texts the handlers set; `localStorage` is the map `store`.
 */
module ChatWidget {
  import opened Wrappers
  import opened JsString
  import opened Format
  import opened Composer
  import opened Storage

  /** `MAX_FILE_SIZE`: 10 MiB. */
  const MaxFileSize: nat := 10 * 1024 * 1024
  const TooLargeAlert: string := "File size must be less than 10MB"
  /** The text of a user message that carries only a file. */
  const FileAttachedText: string := "\U{1F4CE} File attached"
  /** The canned bot answer of the simulated reply. */
  const CannedReply: string := "Thanks for your message! Our team will get back to you shortly."
  const CannedQuickReplies: seq<string> :=
    ["I need help with my order", "Technical support", "Billing question", "Other"]

  /**
   * The text a suggestion button gives back on a click. The suggestion is written
   * into a double-quoted `data-text` attribute after `escapeHtml`, which escapes
   * `&`, `<` and `>` but not `"`; so reading `dataset.text` yields the suggestion
   * up to its first double quote.
   */
  function SuggestionText(reply: string): string
  {
    if reply == [] || reply[0] == '"' then [] else [reply[0]] + SuggestionText(reply[1..])
  }

  /**
   * The text given back is the part of the suggestion before its first double
   * quote: a prefix without `"`, followed in the suggestion by `"` or by nothing.
   */
  lemma {:induction false} SuggestionTextSpec(reply: string)
    ensures var r := SuggestionText(reply);
      |r| <= |reply| && r == reply[..|r|] &&
      (forall i :: 0 <= i < |r| ==> r[i] != '"') &&
      (|r| < |reply| ==> reply[|r|] == '"')
  {
    if reply != [] && reply[0] != '"' {
      SuggestionTextSpec(reply[1..]);
      var r := SuggestionText(reply);
      assert r == [reply[0]] + SuggestionText(reply[1..]);
    }
  }

  /** A suggestion without a double quote is given back whole. */
  lemma SuggestionWithoutQuoteIsKept(reply: string)
    requires forall i :: 0 <= i < |reply| ==> reply[i] != '"'
    ensures SuggestionText(reply) == reply
  {
    SuggestionTextSpec(reply);
  }

  /** A suggestion with a double quote loses everything from it on. */
  lemma QuotedSuggestionIsCut()
    ensures SuggestionText("Say \"hi\"") == "Say "
  {
    var r := SuggestionText("Say \"hi\"");
    SuggestionTextSpec("Say \"hi\"");
    assert "Say \"hi\""[4] == '"';
  }

  /** A browser `File`: its name, its size in bytes and its MIME type. */
  datatype File = File(name: string, size: nat, mimeType: string)

  datatype AttachmentKind = ImageAttachment | FileAttachment

  /** What a sent message records of the staged file. */
  datatype Attachment = Attachment(name: string, size: string, kind: AttachmentKind, url: Option<string>)

  datatype Sender = User | Bot

  /** One entry of `messageHistory`. */
  datatype Entry = Entry(text: string, from: Sender, timestamp: int, attachment: Option<Attachment>)

  /** The three tones of the `sounds` table. */
  datatype Tone = SendTone | ReceiveTone | NotificationTone

  predicate IsImage(f: File)
  {
    StartsWith(f.mimeType, "image/")
  }

  /**
   * The attachment `sendMessage` builds from the staged file: its name, its
   * formatted size, and an object URL (an input here) exactly for images.
   */
  function AttachmentOf(f: File, objectUrl: string): (a: Attachment)
    ensures a.name == f.name && a.size == FormatFileSize(f.size)
    ensures a.kind == ImageAttachment <==> IsImage(f)
    ensures a.url.Some? <==> IsImage(f)
    ensures a.url.Some? ==> a.url.value == objectUrl
  {
    if IsImage(f) then Attachment(f.name, FormatFileSize(f.size), ImageAttachment, Some(objectUrl))
    else Attachment(f.name, FormatFileSize(f.size), FileAttachment, None)
  }

  /** The text of an outgoing message: the trimmed input, or the file label when it is empty. */
  function OutgoingText(trimmed: string): (r: string)
    ensures r != ""
    ensures trimmed != "" ==> r == trimmed
    ensures trimmed == "" ==> r == FileAttachedText
  {
    if trimmed != "" then trimmed else FileAttachedText
  }

  /**
   * The entry `sendMessage` appends for the trimmed input and the staged file: a
   * user message with the text (or the file label) and the file's attachment.
   */
  function Outgoing(trimmed: string, staged: Option<File>, now: int, objectUrl: string): (e: Entry)
    ensures e.from == User && e.timestamp == now && e.text == OutgoingText(trimmed)
    ensures e.attachment.Some? <==> staged.Some?
    ensures staged.Some? ==> e.attachment.value == AttachmentOf(staged.value, objectUrl)
  {
    Entry(OutgoingText(trimmed), User, now,
          if staged.Some? then Some(AttachmentOf(staged.value, objectUrl)) else None)
  }

  /** The tone `addMessage` plays: a notification for a bot message while closed. */
  function ToneFor(open: bool, from: Sender): (t: Tone)
    ensures t == NotificationTone <==> !open && from == Bot
    ensures t == SendTone <==> from == User
  {
    if !open && from == Bot then NotificationTone
    else if from == User then SendTone
    else ReceiveTone
  }

  /**
   * `getThemePreference`: the configured theme, "light" when none is configured,
   * and for "auto" the colour scheme the system prefers.
   */
  function ThemePreference(configured: Option<string>, prefersDark: bool): (r: string)
    ensures r != "" && r != "auto"
    ensures configured.None? || configured == Some("") ==> r == "light"
    ensures configured.Some? && configured.value != "" && configured.value != "auto" ==>
      r == configured.value
    ensures configured == Some("auto") ==> r == (if prefersDark then "dark" else "light")
  {
    var t := if configured.Some? && configured.value != "" then configured.value else "light";
    if t == "auto" then (if prefersDark then "dark" else "light") else t
  }

  /** The theme `toggleTheme` switches to: "dark" from "light", "light" from anything else. */
  function ToggledTheme(theme: string): (r: string)
    ensures r == "light" || r == "dark"
    ensures r != theme
    ensures theme != "light" ==> r == "light"
  {
    if theme == "light" then "dark" else "light"
  }

  /** Toggling twice from "light" or "dark" comes back to it. */
  lemma ToggleThemeTwice(theme: string)
    requires theme == "light" || theme == "dark"
    ensures ToggledTheme(ToggledTheme(theme)) == theme
  {
  }

  class Widget {
    /** The host's `data-site-id`, which scopes the draft key. */
    const siteId: string
    const visitorId: string

    var isOpen: bool
    var isTyping: bool
    var unreadCount: int
    var badgeVisible: bool
    var badgeText: string
    /** The launcher's attention animation. */
    var pulse: bool

    var dragCounter: int
    var overlayVisible: bool

    var currentFile: Option<File>
    var previewVisible: bool
    var previewName: string
    var previewSize: string

    var input: string
    var sendDisabled: bool
    var emojiPickerVisible: bool
    var welcomeVisible: bool

    var history: seq<Entry>
    /** The quick-reply groups on display, oldest first. */
    var quickReplies: seq<seq<string>>

    var store: Store
    var soundEnabled: bool
    var theme: string
    var darkClass: bool

    /** The tones played and the alerts shown, in order. */
    var tones: seq<Tone>
    var alerts: seq<string>

    /**
     * The badge shows the capped count exactly when the count is positive, and the
     * launcher pulses only then and only while the widget is closed.
     */
    ghost predicate BadgeValid()
      reads this`badgeVisible, this`unreadCount, this`badgeText, this`pulse, this`isOpen
    {
      (badgeVisible <==> unreadCount > 0) &&
      (badgeVisible ==> badgeText == BadgeLabel(unreadCount)) &&
      (pulse ==> badgeVisible && !isOpen)
    }

    /** The drop overlay is up exactly while the drag counter is positive. */
    ghost predicate DragValid()
      reads this`overlayVisible, this`dragCounter
    {
      overlayVisible <==> dragCounter > 0
    }

    /** The upload preview shows exactly the staged file, which is never over the limit. */
    ghost predicate StagingValid()
      reads this`previewVisible, this`currentFile, this`previewName
    {
      (previewVisible <==> currentFile.Some?) &&
      (currentFile.Some? ==> currentFile.value.size <= MaxFileSize && previewName == currentFile.value.name)
    }

    /**
     * The sound flag and the visitor id agree with storage, and the dark class
     * follows the theme.
     */
    ghost predicate PrefsValid()
      reads this`soundEnabled, this`store, this`darkClass, this`theme
    {
      soundEnabled == SoundEnabledIn(store) &&
      (darkClass <==> theme == "dark") &&
      siteId != "" && visitorId != "" &&
      GetItem(store, VisitorIdKey) == Some(visitorId)
    }

    /**
     * What every handler keeps. Each method states the parts over the fields it
     * may change; its frame keeps the others.
     */
    ghost predicate Valid()
      reads this`badgeVisible, this`unreadCount, this`badgeText, this`pulse, this`isOpen,
            this`overlayVisible, this`dragCounter, this`previewVisible, this`currentFile,
            this`previewName, this`soundEnabled, this`store, this`darkClass, this`theme
    {
      BadgeValid() && DragValid() && StagingValid() && PrefsValid()
    }

    /**
     * The widget as the script leaves it after mounting: closed, empty, with the
     * visitor id resolved against storage, the sound flag read from it and the
     * theme taken from the configuration.
     */
    ghost predicate Initial(siteId: string, configuredTheme: Option<string>, prefersDark: bool,
                            initialStore: Store, generatedId: string)
      reads this
    {
      this.siteId == siteId &&
      visitorId == ResolveVisitorId(initialStore, generatedId).id &&
      store == ResolveVisitorId(initialStore, generatedId).store &&
      soundEnabled == SoundEnabledIn(initialStore) &&
      theme == ThemePreference(configuredTheme, prefersDark) &&
      darkClass == (theme == "dark") &&
      !isOpen && !isTyping && unreadCount == 0 && !badgeVisible && badgeText == "" && !pulse &&
      dragCounter == 0 && !overlayVisible && currentFile == None && !previewVisible &&
      previewName == "" && previewSize == "" &&
      input == "" && sendDisabled && !emojiPickerVisible && welcomeVisible &&
      history == [] && quickReplies == [] && tones == [] && alerts == []
    }

    constructor (siteId: string, configuredTheme: Option<string>, prefersDark: bool,
                 initialStore: Store, generatedId: string)
      requires siteId != ""
      ensures Valid()
      ensures Initial(siteId, configuredTheme, prefersDark, initialStore, generatedId)
    {
      var resolved := ResolveVisitorId(initialStore, generatedId);
      this.siteId := siteId;
      visitorId := resolved.id;
      store := resolved.store;
      soundEnabled := SoundEnabledIn(initialStore);
      var preferred := ThemePreference(configuredTheme, prefersDark);
      theme := preferred;
      darkClass := preferred == "dark";
      isOpen, isTyping, unreadCount := false, false, 0;
      badgeVisible, badgeText, pulse := false, "", false;
      dragCounter, overlayVisible := 0, false;
      currentFile, previewVisible, previewName, previewSize := None, false, "", "";
      input, sendDisabled, emojiPickerVisible, welcomeVisible := "", true, false, true;
      history, quickReplies, tones, alerts := [], [], [], [];
    }

    /** `playTone`'s guard: a tone is heard only while sound is enabled. */
    method PlayTone(t: Tone)
      modifies this`tones
      ensures tones == old(tones) + (if soundEnabled then [t] else [])
    {
      if soundEnabled {
        tones := tones + [t];
      }
    }

    /** `updateBadge(count)`, also the public `setUnreadCount`. */
    method UpdateBadge(count: int)
      requires BadgeValid()
      modifies this`unreadCount, this`badgeVisible, this`badgeText, this`pulse
      ensures BadgeValid()
      ensures unreadCount == count
      ensures badgeVisible == (count > 0)
      ensures count > 0 ==> badgeText == BadgeLabel(count) && pulse == (old(pulse) || !isOpen)
      ensures count <= 0 ==> badgeText == old(badgeText) && !pulse
    {
      unreadCount := count;
      if count > 0 {
        badgeText := BadgeLabel(count);
        badgeVisible := true;
        if !isOpen {
          pulse := true;
        }
      } else {
        badgeVisible := false;
        pulse := false;
      }
    }

    /** `saveDraft`: the composer text goes under the site's draft key. */
    method SaveDraft()
      requires PrefsValid()
      modifies this`store
      ensures PrefsValid()
      ensures store == old(store)[DraftKey(siteId) := input]
    {
      store := store[DraftKey(siteId) := input];
    }

    /** `loadDraft`: a non-empty stored draft replaces the composer text. */
    method LoadDraft()
      modifies this`input, this`sendDisabled
      ensures StoredDraft(store, siteId).Some? ==>
        input == StoredDraft(store, siteId).value && sendDisabled == (Trim(input) == "")
      ensures StoredDraft(store, siteId).None? ==>
        input == old(input) && sendDisabled == old(sendDisabled)
    {
      var draft := StoredDraft(store, siteId);
      if draft.Some? {
        input := draft.value;
        sendDisabled := Trim(draft.value) == "";
      }
    }

    /** `clearDraft`: the site's draft key is removed. */
    method ClearDraft()
      requires PrefsValid()
      modifies this`store
      ensures PrefsValid()
      ensures store == old(store) - {DraftKey(siteId)}
    {
      store := store - {DraftKey(siteId)};
    }

    /** The composer's `input` event: new text, send button state, draft saved. */
    method TypeInput(value: string)
      requires PrefsValid()
      modifies this`input, this`sendDisabled, this`store
      ensures PrefsValid()
      ensures input == value && sendDisabled == (Trim(value) == "")
      ensures store == old(store)[DraftKey(siteId) := value]
    {
      input := value;
      sendDisabled := Trim(value) == "";
      SaveDraft();
    }

    /**
     * `openWidget`: nothing when already open; otherwise open, no unread count, no
     * badge or pulse, and the stored draft (if non-empty) back in the composer.
     */
    method OpenWidget()
      requires BadgeValid()
      modifies this`isOpen, this`pulse, this`unreadCount, this`badgeVisible, this`badgeText,
               this`input, this`sendDisabled
      ensures BadgeValid()
      ensures old(isOpen) ==> unchanged(this)
      ensures !old(isOpen) ==>
        isOpen && unreadCount == 0 && !badgeVisible && !pulse && badgeText == old(badgeText)
      ensures !old(isOpen) && StoredDraft(store, siteId).Some? ==>
        input == StoredDraft(store, siteId).value && sendDisabled == (Trim(input) == "")
      ensures !old(isOpen) && StoredDraft(store, siteId).None? ==>
        input == old(input) && sendDisabled == old(sendDisabled)
    {
      if isOpen {
        return;
      }
      isOpen := true;
      pulse := false;
      UpdateBadge(0);
      LoadDraft();
    }

    /**
     * `closeWidget`: nothing when already closed; otherwise closed, the emoji picker
     * dismissed, and the draft stored only when the composer holds non-blank text.
     */
    method CloseWidget()
      requires BadgeValid() && PrefsValid()
      modifies this`isOpen, this`emojiPickerVisible, this`store
      ensures BadgeValid() && PrefsValid()
      ensures !old(isOpen) ==> unchanged(this)
      ensures old(isOpen) ==> !isOpen && !emojiPickerVisible
      ensures old(isOpen) && Trim(input) != "" ==> store == old(store)[DraftKey(siteId) := input]
      ensures old(isOpen) && Trim(input) == "" ==> store == old(store)
    {
      if !isOpen {
        return;
      }
      isOpen := false;
      emojiPickerVisible := false;
      if Trim(input) != "" {
        SaveDraft();
      }
    }

    /** `toggleWidget`: closes an open widget and opens a closed one. */
    method ToggleWidget()
      requires BadgeValid() && PrefsValid()
      modifies this`isOpen, this`pulse, this`unreadCount, this`badgeVisible, this`badgeText,
               this`input, this`sendDisabled, this`emojiPickerVisible, this`store
      ensures BadgeValid() && PrefsValid()
      ensures isOpen == !old(isOpen)
      ensures old(isOpen) ==>
        !emojiPickerVisible && unreadCount == old(unreadCount) && badgeVisible == old(badgeVisible) &&
        badgeText == old(badgeText) && pulse == old(pulse) && input == old(input) &&
        sendDisabled == old(sendDisabled) &&
        store == (if Trim(input) != "" then old(store)[DraftKey(siteId) := input] else old(store))
      ensures !old(isOpen) ==>
        unreadCount == 0 && !badgeVisible && !pulse && badgeText == old(badgeText) &&
        emojiPickerVisible == old(emojiPickerVisible) && store == old(store) &&
        (StoredDraft(store, siteId).Some? ==>
          input == StoredDraft(store, siteId).value && sendDisabled == (Trim(input) == "")) &&
        (StoredDraft(store, siteId).None? ==>
          input == old(input) && sendDisabled == old(sendDisabled))
    {
      if isOpen {
        CloseWidget();
      } else {
        OpenWidget();
      }
    }

    /** The Escape key: closes an open widget and dismisses the emoji picker. */
    method PressEscape()
      requires BadgeValid() && PrefsValid()
      modifies this`isOpen, this`emojiPickerVisible, this`store
      ensures BadgeValid() && PrefsValid()
      ensures !old(isOpen) ==> unchanged(this)
      ensures old(isOpen) ==> !isOpen && !emojiPickerVisible
      ensures old(isOpen) ==>
        store == (if Trim(input) != "" then old(store)[DraftKey(siteId) := input] else old(store))
    {
      if isOpen {
        CloseWidget();
        emojiPickerVisible := false;
      }
    }

    /** The welcome card's start button: the conversation view replaces it. */
    method StartChat()
      modifies this`welcomeVisible
      ensures !welcomeVisible
    {
      welcomeVisible := false;
    }

    /** `showTyping`: the indicator is shown, once; a second call changes nothing. */
    method ShowTyping()
      modifies this`isTyping, this`welcomeVisible
      ensures isTyping
      ensures old(isTyping) ==> unchanged(this)
      ensures !old(isTyping) ==> !welcomeVisible
    {
      if isTyping {
        return;
      }
      isTyping := true;
      welcomeVisible := false;
    }

    /** `hideTyping`. */
    method HideTyping()
      modifies this`isTyping
      ensures !isTyping
    {
      isTyping := false;
    }

    /**
     * `addMessage`: exactly one entry is appended and the typing indicator goes;
     * a bot message while closed raises the unread count by one (badge and pulse
     * as `UpdateBadge` sets them); every other message leaves the badge alone.
     */
    method AddMessage(text: string, from: Sender, attachment: Option<Attachment>, now: int)
      requires BadgeValid()
      modifies this`isTyping, this`welcomeVisible, this`unreadCount, this`badgeVisible,
               this`badgeText, this`pulse, this`tones, this`history
      ensures BadgeValid()
      ensures history == old(history) + [Entry(text, from, now, attachment)]
      ensures !isTyping && !welcomeVisible
      ensures tones == old(tones) + (if soundEnabled then [ToneFor(isOpen, from)] else [])
      ensures !isOpen && from == Bot ==>
        unreadCount == old(unreadCount) + 1 && badgeVisible == (unreadCount > 0) &&
        (unreadCount > 0 ==> badgeText == BadgeLabel(unreadCount) && pulse) &&
        (unreadCount <= 0 ==> badgeText == old(badgeText) && !pulse)
      ensures !(!isOpen && from == Bot) ==>
        unreadCount == old(unreadCount) && badgeVisible == old(badgeVisible) &&
        badgeText == old(badgeText) && pulse == old(pulse)
    {
      HideTyping();
      welcomeVisible := false;
      if !isOpen && from == Bot {
        UpdateBadge(unreadCount + 1);
        PlayTone(NotificationTone);
      } else if from == User {
        PlayTone(SendTone);
      } else {
        PlayTone(ReceiveTone);
      }
      history := history + [Entry(text, from, now, attachment)];
    }

    /**
     * The public `sendMessage(text, attachment)`: a user entry appended as given,
     * with none of the composer's guards (an empty text is appended too).
     */
    method ApiSendMessage(text: string, attachment: Option<Attachment>, now: int)
      requires BadgeValid()
      modifies this`isTyping, this`welcomeVisible, this`unreadCount, this`badgeVisible,
               this`badgeText, this`pulse, this`tones, this`history
      ensures BadgeValid()
      ensures history == old(history) + [Entry(text, User, now, attachment)]
      ensures !isTyping && !welcomeVisible
      ensures unreadCount == old(unreadCount) && badgeVisible == old(badgeVisible) &&
        badgeText == old(badgeText) && pulse == old(pulse)
      ensures tones == old(tones) + (if soundEnabled then [SendTone] else [])
    {
      AddMessage(text, User, attachment, now);
    }

    /**
     * Closing with non-blank text and opening again gives the same composer text
     * back through the stored draft, with the send button enabled. Nothing is
     * left unread, the picker is hidden, and only the draft was written.
     */
    method CloseThenReopen()
      requires BadgeValid() && PrefsValid()
      requires isOpen && Trim(input) != ""
      modifies this`isOpen, this`pulse, this`unreadCount, this`badgeVisible, this`badgeText,
               this`input, this`sendDisabled, this`emojiPickerVisible, this`store
      ensures BadgeValid() && PrefsValid()
      ensures isOpen && input == old(input) && !sendDisabled
      ensures StoredDraft(store, siteId) == Some(input)
      ensures unreadCount == 0 && !badgeVisible && !pulse && badgeText == old(badgeText)
      ensures !emojiPickerVisible && store == old(store)[DraftKey(siteId) := old(input)]
    {
      NonBlankIsNonEmpty(input);
      CloseWidget();
      OpenWidget();
    }

    /** `showQuickReplies`: one more group of suggestions below the conversation. */
    method ShowQuickReplies(replies: seq<string>)
      modifies this`quickReplies
      ensures quickReplies == old(quickReplies) + [replies]
    {
      quickReplies := quickReplies + [replies];
    }

    /**
     * `sendMessage`: nothing at all when the trimmed input is empty and no file is
     * staged (`sent` is false and no reply is scheduled). Otherwise one user entry
     * with the trimmed text (or the file label) and the staged file's attachment;
     * then the composer, the draft and the staged file are cleared.
     */
    method SendMessage(now: int, objectUrl: string) returns (sent: bool)
      requires BadgeValid() && StagingValid() && PrefsValid()
      modifies this`isTyping, this`welcomeVisible, this`unreadCount, this`badgeVisible,
               this`badgeText, this`pulse, this`tones, this`history,
               this`input, this`sendDisabled, this`store, this`currentFile, this`previewVisible
      ensures BadgeValid() && StagingValid() && PrefsValid()
      ensures sent == (Trim(old(input)) != "" || old(currentFile).Some?)
      ensures !sent ==>
        history == old(history) && tones == old(tones) && input == old(input) &&
        store == old(store) && currentFile == old(currentFile) && isTyping == old(isTyping) &&
        welcomeVisible == old(welcomeVisible) && unreadCount == old(unreadCount) &&
        badgeVisible == old(badgeVisible) && badgeText == old(badgeText) && pulse == old(pulse) &&
        sendDisabled == old(sendDisabled) && previewVisible == old(previewVisible)
      ensures sent ==> history == old(history) + [Outgoing(Trim(old(input)), old(currentFile), now, objectUrl)]
      ensures sent ==>
        input == "" && sendDisabled && currentFile == None && !previewVisible &&
        store == old(store) - {DraftKey(siteId)} && !isTyping && !welcomeVisible &&
        tones == old(tones) + (if soundEnabled then [SendTone] else []) &&
        unreadCount == old(unreadCount) && badgeVisible == old(badgeVisible) &&
        badgeText == old(badgeText) && pulse == old(pulse)
    {
      var text := Trim(input);
      if text == "" && currentFile.None? {
        return false;
      }
      Deliver(text, now, objectUrl);
      sent := true;
    }

    /**
     * The part of `sendMessage` past its guard: the user entry for the trimmed
     * text and the staged file, then an empty composer, no draft, no staged file.
     */
    method Deliver(text: string, now: int, objectUrl: string)
      requires BadgeValid() && StagingValid() && PrefsValid()
      modifies this`isTyping, this`welcomeVisible, this`unreadCount, this`badgeVisible,
               this`badgeText, this`pulse, this`tones, this`history,
               this`input, this`sendDisabled, this`store, this`currentFile, this`previewVisible
      ensures BadgeValid() && StagingValid() && PrefsValid()
      ensures history == old(history) + [Outgoing(text, old(currentFile), now, objectUrl)]
      ensures input == "" && sendDisabled && currentFile == None && !previewVisible &&
        store == old(store) - {DraftKey(siteId)} && !isTyping && !welcomeVisible &&
        tones == old(tones) + (if soundEnabled then [SendTone] else []) &&
        unreadCount == old(unreadCount) && badgeVisible == old(badgeVisible) &&
        badgeText == old(badgeText) && pulse == old(pulse)
    {
      var entry := Outgoing(text, currentFile, now, objectUrl);
      AddMessage(entry.text, entry.from, entry.attachment, now);
      ResetComposer();
    }

    /** What `sendMessage` does after the entry: empty composer, no draft, no staged file. */
    method ResetComposer()
      requires StagingValid() && PrefsValid()
      modifies this`input, this`sendDisabled, this`store, this`currentFile, this`previewVisible
      ensures StagingValid() && PrefsValid()
      ensures input == "" && sendDisabled && currentFile == None && !previewVisible
      ensures store == old(store) - {DraftKey(siteId)}
    {
      input := "";
      sendDisabled := true;
      ClearDraft();
      ClearFileUpload();
    }

    /**
     * Second step of the simulated reply (the first is `ShowTyping`): the canned
     * bot answer, which also removes the typing indicator.
     */
    method ReplyWithCannedMessage(now: int)
      requires BadgeValid()
      modifies this`isTyping, this`welcomeVisible, this`unreadCount, this`badgeVisible,
               this`badgeText, this`pulse, this`tones, this`history
      ensures BadgeValid()
      ensures history == old(history) + [Entry(CannedReply, Bot, now, None)]
      ensures !isTyping && !welcomeVisible
      ensures tones == old(tones) + (if soundEnabled then [ToneFor(isOpen, Bot)] else [])
      ensures isOpen ==>
        unreadCount == old(unreadCount) && badgeVisible == old(badgeVisible) &&
        badgeText == old(badgeText) && pulse == old(pulse)
      ensures !isOpen ==>
        unreadCount == old(unreadCount) + 1 && badgeVisible == (unreadCount > 0) &&
        (unreadCount > 0 ==> badgeText == BadgeLabel(unreadCount) && pulse) &&
        (unreadCount <= 0 ==> badgeText == old(badgeText) && !pulse)
    {
      AddMessage(CannedReply, Bot, None, now);
    }

    /** Third step of the simulated reply: the four canned quick replies. */
    method OfferCannedQuickReplies()
      modifies this`quickReplies
      ensures quickReplies == old(quickReplies) + [CannedQuickReplies]
    {
      ShowQuickReplies(CannedQuickReplies);
    }

    /**
     * A click on suggestion `choice` of group `group`: the text its button gives
     * back becomes the input, `sendMessage` runs on it, and that group of
     * suggestions goes away.
     */
    method SelectQuickReply(group: nat, choice: nat, now: int, objectUrl: string) returns (sent: bool)
      requires BadgeValid() && StagingValid() && PrefsValid()
      requires group < |quickReplies| && choice < |quickReplies[group]|
      modifies this`isTyping, this`welcomeVisible, this`unreadCount, this`badgeVisible,
               this`badgeText, this`pulse, this`tones, this`history,
               this`input, this`sendDisabled, this`store, this`currentFile, this`previewVisible,
               this`quickReplies
      ensures BadgeValid() && StagingValid() && PrefsValid()
      ensures quickReplies == old(quickReplies[..group] + quickReplies[group + 1..])
      ensures sent == (Trim(SuggestionText(old(quickReplies[group][choice]))) != "" || old(currentFile).Some?)
      ensures !sent ==>
        input == SuggestionText(old(quickReplies[group][choice])) &&
        history == old(history) && tones == old(tones) &&
        store == old(store) && currentFile == old(currentFile) && isTyping == old(isTyping) &&
        welcomeVisible == old(welcomeVisible) && unreadCount == old(unreadCount) &&
        badgeVisible == old(badgeVisible) && badgeText == old(badgeText) && pulse == old(pulse) &&
        sendDisabled == old(sendDisabled) && previewVisible == old(previewVisible)
      ensures sent ==>
        history == old(history) +
          [Outgoing(Trim(SuggestionText(old(quickReplies[group][choice]))), old(currentFile), now, objectUrl)]
      ensures sent ==>
        input == "" && sendDisabled && currentFile == None && !previewVisible &&
        store == old(store) - {DraftKey(siteId)} && !isTyping && !welcomeVisible &&
        tones == old(tones) + (if soundEnabled then [SendTone] else []) &&
        unreadCount == old(unreadCount) && badgeVisible == old(badgeVisible) &&
        badgeText == old(badgeText) && pulse == old(pulse)
    {
      var text := SuggestionText(quickReplies[group][choice]);
      input := text;
      sent := SendMessage(now, objectUrl);
      quickReplies := quickReplies[..group] + quickReplies[group + 1..];
    }

    /**
     * `handleFileSelect`: no file, nothing; a file over 10 MiB raises the alert and
     * leaves the staged file as it was; any other file is staged in its place.
     */
    method HandleFileSelect(file: Option<File>)
      requires StagingValid()
      modifies this`currentFile, this`previewVisible, this`previewName, this`previewSize, this`alerts
      ensures StagingValid()
      ensures file.None? ==> unchanged(this)
      ensures file.Some? && file.value.size > MaxFileSize ==>
        currentFile == old(currentFile) && previewVisible == old(previewVisible) &&
        previewName == old(previewName) && previewSize == old(previewSize) &&
        alerts == old(alerts) + [TooLargeAlert]
      ensures file.Some? && file.value.size <= MaxFileSize ==>
        currentFile == file && previewVisible && previewName == file.value.name &&
        previewSize == FormatFileSize(file.value.size) && alerts == old(alerts)
    {
      if file.None? {
        return;
      }
      var f := file.value;
      if f.size > MaxFileSize {
        alerts := alerts + [TooLargeAlert];
        return;
      }
      currentFile := file;
      previewName := f.name;
      previewSize := FormatFileSize(f.size);
      previewVisible := true;
    }

    /** `clearFileUpload`: no staged file, preview hidden. */
    method ClearFileUpload()
      requires StagingValid()
      modifies this`currentFile, this`previewVisible
      ensures StagingValid()
      ensures currentFile == None && !previewVisible
    {
      currentFile := None;
      previewVisible := false;
    }

    /** `dragenter`: one level deeper; the overlay appears when the count reaches 1. */
    method DragEnter()
      requires DragValid()
      modifies this`dragCounter, this`overlayVisible
      ensures DragValid()
      ensures dragCounter == old(dragCounter) + 1
      ensures overlayVisible == (dragCounter == 1 || old(overlayVisible))
    {
      dragCounter := dragCounter + 1;
      if dragCounter == 1 {
        overlayVisible := true;
      }
    }

    /** `dragleave`: one level up; the overlay goes when the count reaches 0. */
    method DragLeave()
      requires DragValid()
      modifies this`dragCounter, this`overlayVisible
      ensures DragValid()
      ensures dragCounter == old(dragCounter) - 1
      ensures overlayVisible == (dragCounter != 0 && old(overlayVisible))
    {
      dragCounter := dragCounter - 1;
      if dragCounter == 0 {
        overlayVisible := false;
      }
    }

    /**
     * `drop`: the counter resets, the overlay goes, and the first dropped file (if
     * any) is staged through the same size check as the file picker.
     */
    method Drop(file: Option<File>)
      requires DragValid() && StagingValid()
      modifies this`dragCounter, this`overlayVisible, this`currentFile, this`previewVisible,
               this`previewName, this`previewSize, this`alerts
      ensures DragValid() && StagingValid()
      ensures dragCounter == 0 && !overlayVisible
      ensures file.None? || file.value.size > MaxFileSize ==>
        currentFile == old(currentFile) && previewVisible == old(previewVisible) &&
        previewName == old(previewName) && previewSize == old(previewSize)
      ensures alerts == old(alerts) + (if file.Some? && file.value.size > MaxFileSize then [TooLargeAlert] else [])
      ensures file.Some? && file.value.size <= MaxFileSize ==>
        currentFile == file && previewVisible && previewName == file.value.name &&
        previewSize == FormatFileSize(file.value.size)
    {
      dragCounter := 0;
      overlayVisible := false;
      if file.Some? {
        HandleFileSelect(file);
      }
    }

    /** The emoji button: shows or hides the picker. */
    method ToggleEmojiPicker()
      modifies this`emojiPickerVisible
      ensures emojiPickerVisible == !old(emojiPickerVisible)
    {
      emojiPickerVisible := !emojiPickerVisible;
    }

    /** A click outside the picker dismisses it. */
    method DismissEmojiPicker()
      modifies this`emojiPickerVisible
      ensures !emojiPickerVisible
    {
      emojiPickerVisible := false;
    }

    /**
     * A click on an emoji: it replaces the selection `[start, end)` of the composer
     * text, the caret lands after it, and the picker closes. No draft is written.
     */
    method InsertEmoji(emoji: string, start: nat, end: nat) returns (caret: nat)
      requires start <= end <= |input|
      modifies this`input, this`sendDisabled, this`emojiPickerVisible
      ensures var e := InsertAtSelection(old(input), start, end, emoji);
        input == e.text && caret == e.caret
      ensures sendDisabled == (Trim(input) == "") && !emojiPickerVisible
    {
      var e := InsertAtSelection(input, start, end, emoji);
      input := e.text;
      caret := e.caret;
      sendDisabled := Trim(input) == "";
      emojiPickerVisible := false;
    }

    /** The sound button: flips the flag, stores it, and confirms with a tone when on. */
    method ToggleSound()
      requires PrefsValid()
      modifies this`soundEnabled, this`store, this`tones
      ensures PrefsValid()
      ensures soundEnabled == !old(soundEnabled)
      ensures store == old(store)[SoundKey := SoundFlag(soundEnabled)]
      ensures tones == old(tones) + (if soundEnabled then [NotificationTone] else [])
    {
      soundEnabled := !soundEnabled;
      SoundFlagRoundTrip(store, soundEnabled);
      store := store[SoundKey := SoundFlag(soundEnabled)];
      PlayTone(NotificationTone);
    }

    /** `setTheme`: the theme is stored and the dark class follows it. */
    method SetTheme(t: string)
      requires PrefsValid()
      modifies this`theme, this`store, this`darkClass
      ensures PrefsValid()
      ensures theme == t && darkClass == (t == "dark")
      ensures store == old(store)[ThemeKey := t]
    {
      theme := t;
      store := store[ThemeKey := t];
      darkClass := t == "dark";
    }

    /** `toggleTheme`. */
    method ToggleTheme()
      requires PrefsValid()
      modifies this`theme, this`store, this`darkClass
      ensures PrefsValid()
      ensures theme == ToggledTheme(old(theme)) && darkClass == (theme == "dark")
      ensures store == old(store)[ThemeKey := theme]
    {
      SetTheme(ToggledTheme(theme));
    }

    /**
     * `getVisitorId` called again on a mounted widget: the id resolved at mount time,
     * with storage left as it is.
     */
    method GetVisitorId(generatedId: string) returns (id: string)
      requires PrefsValid()
      modifies this`store
      ensures PrefsValid()
      ensures id == visitorId && store == old(store)
    {
      var resolved := ResolveVisitorId(store, generatedId);
      store := resolved.store;
      id := resolved.id;
    }
  }

  /**
   * The script's start: without a non-empty site id nothing is mounted; otherwise a
   * fresh, closed, empty widget.
   */
  method Mount(siteId: Option<string>, configuredTheme: Option<string>, prefersDark: bool,
               initialStore: Store, generatedId: string) returns (w: Option<Widget>)
    ensures w.None? <==> siteId.None? || siteId.value == ""
    ensures w.Some? ==>
      fresh(w.value) && w.value.Valid() &&
      w.value.Initial(siteId.value, configuredTheme, prefersDark, initialStore, generatedId)
  {
    if siteId.None? || siteId.value == "" {
      return None;
    }
    var widget := new Widget(siteId.value, configuredTheme, prefersDark, initialStore, generatedId);
    w := Some(widget);
  }
}
