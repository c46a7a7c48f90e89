/**
 * The widget's use of `localStorage`, modelled as a map from key to string value:
 * the keys it writes (public/widget.js:39, 52, 1700, 1857, 2131), the visitor id
 * that is generated once, the sound flag and the site-scoped draft.
 */
module Storage {
  import opened Wrappers

  /**
   * The keys the widget uses. Three are shared by every site on the browser
   * profile; the draft key is scoped by the site id.
   */
  datatype Key = VisitorIdKey | SoundKey | ThemeKey | DraftKey(siteId: string)

  /** `localStorage`, keyed by the widget's keys. */
  type Store = map<Key, string>

  const DraftPrefix: string := "chatiq_draft_"

  /** The string under which `localStorage` holds each key. */
  function KeyName(k: Key): string
  {
    match k
    case VisitorIdKey => "chatiq_visitor_id"
    case SoundKey => "chatiq_sound_enabled"
    case ThemeKey => "chatiq_theme"
    case DraftKey(siteId) => DraftPrefix + siteId
  }

  /**
   * Distinct keys have distinct names: two sites sharing one storage never write
   * the same draft, and no draft overwrites a profile-wide key. So a map keyed by
   * `Key` is the string-keyed storage.
   */
  lemma KeyNameInjective(a: Key, b: Key)
    requires KeyName(a) == KeyName(b)
    ensures a == b
  {
    var n := KeyName(a);
    assert n[7] == KeyName(b)[7];
    if a.DraftKey? && b.DraftKey? {
      assert a.siteId == n[|DraftPrefix|..] == b.siteId;
    }
  }

  /** `localStorage.getItem(key)`: `None` is `null`. */
  function GetItem(store: Store, key: Key): (r: Option<string>)
    ensures r.Some? <==> key in store
    ensures r.Some? ==> r.value == store[key]
  {
    if key in store then Some(store[key]) else None
  }

  /** The stored value if JavaScript would take it as true: present and not "". */
  function Truthy(v: Option<string>): (r: Option<string>)
    ensures r.Some? <==> v.Some? && v.value != ""
    ensures r.Some? ==> r == v
  {
    if v.Some? && v.value != "" then v else None
  }

  /** `String(enabled)`, which is what `setItem` stores for a boolean. */
  function SoundFlag(enabled: bool): string
  {
    if enabled then "true" else "false"
  }

  /** Sound is on unless the stored flag is exactly "false" (public/widget.js:39). */
  predicate SoundEnabledIn(store: Store)
  {
    GetItem(store, SoundKey) != Some("false")
  }

  /** Writing the flag and reading it back gives the flag. */
  lemma SoundFlagRoundTrip(store: Store, enabled: bool)
    ensures SoundEnabledIn(store[SoundKey := SoundFlag(enabled)]) == enabled
  {
  }

  /** The visitor id the widget ends up with and the storage after `getVisitorId`. */
  datatype Resolved = Resolved(id: string, store: Store)

  /**
   * `getVisitorId`: the stored id when there is a non-empty one; otherwise the
   * fresh id `"v_" + generated` (random and time digits, an input here), stored.
   */
  function ResolveVisitorId(store: Store, generated: string): (r: Resolved)
    ensures r.id != ""
    ensures r.store == store[VisitorIdKey := r.id]
    ensures Truthy(GetItem(store, VisitorIdKey)).Some? ==>
      r.id == store[VisitorIdKey] && r.store == store
    ensures Truthy(GetItem(store, VisitorIdKey)).None? ==> r.id == "v_" + generated
  {
    match Truthy(GetItem(store, VisitorIdKey))
    case Some(id) => Resolved(id, store)
    case None =>
      var id := "v_" + generated;
      assert id[0] == 'v';
      Resolved(id, store[VisitorIdKey := id])
  }

  /**
   * Once resolved, the id is stable: resolving again on the resulting storage,
   * whatever would be generated then, returns the same id and writes nothing.
   */
  lemma VisitorIdStable(store: Store, first: string, second: string)
    ensures var r := ResolveVisitorId(store, first);
      ResolveVisitorId(r.store, second) == r
  {
  }

  /** On cleared storage, two different generated ids stay different. */
  lemma ClearedStorageGivesNewId(first: string, second: string)
    requires first != second
    ensures ResolveVisitorId(map[], first).id != ResolveVisitorId(map[], second).id
  {
    var a, b := ResolveVisitorId(map[], first).id, ResolveVisitorId(map[], second).id;
    assert first == a[2..] && second == b[2..];
  }

  /** The draft `loadDraft` restores: the site's stored draft if it is non-empty. */
  function StoredDraft(store: Store, siteId: string): (r: Option<string>)
    ensures r.Some? <==> DraftKey(siteId) in store && store[DraftKey(siteId)] != ""
    ensures r.Some? ==> r.value == store[DraftKey(siteId)]
  {
    Truthy(GetItem(store, DraftKey(siteId)))
  }

  /**
   * A saved non-empty draft is what the site loads back; a cleared one loads as
   * nothing; and neither touches another site's draft.
   */
  lemma DraftRoundTrip(store: Store, siteId: string, other: string, text: string)
    requires other != siteId
    ensures text != "" ==> StoredDraft(store[DraftKey(siteId) := text], siteId) == Some(text)
    ensures text == "" ==> StoredDraft(store[DraftKey(siteId) := text], siteId) == None
    ensures StoredDraft(store - {DraftKey(siteId)}, siteId) == None
    ensures StoredDraft(store[DraftKey(siteId) := text], other) == StoredDraft(store, other)
    ensures StoredDraft(store - {DraftKey(siteId)}, other) == StoredDraft(store, other)
  {
  }
}
