/**
 * The persisted collapse flag of one form section (src/hooks/useToggleState.ts).
 *
 * Each section keeps a boolean "expanded" flag in a string key-value store
 * (the browser's localStorage) under the key `wellness-section-<name>`.
 * Mounting reads and decodes the stored string, healing a corrupted entry;
 * `Toggle` flips the in-memory flag; `Persist` is the effect that runs after
 * mount and after every change and writes `String(isExpanded)` back.
 * Storage failures are boolean parameters: the store either performs the
 * operation or throws, and the hook swallows the exception.
 */
module ToggleStateHook {
  import opened Types

  const KeyPrefix: string := "wellness-section-"

  /** The store key of a section. Distinct sections get distinct keys. */
  function StorageKey(sectionName: string): (key: string)
    ensures |key| == |KeyPrefix| + |sectionName|
    ensures key[..|KeyPrefix|] == KeyPrefix && key[|KeyPrefix|..] == sectionName
  {
    KeyPrefix + sectionName
  }

  lemma StorageKeyInjective(a: string, b: string)
    requires StorageKey(a) == StorageKey(b)
    ensures a == b
  {
    assert a == StorageKey(a)[|KeyPrefix|..];
  }

  /** `String(b)` for a boolean. */
  function Encode(b: bool): string {
    if b then "true" else "false"
  }

  /** The two strings the initializer recognises, compared case-sensitively. */
  predicate IsEncoding(s: string) {
    s == "true" || s == "false"
  }

  /** `localStorage.getItem(key)`: the entry, or null when the key is absent. */
  function Lookup(entries: map<string, string>, key: string): Option<string> {
    if key in entries then Some(entries[key]) else None
  }

  /**
   * What the initializer makes of a stored value: the flag it starts with,
   * and the string it writes back to heal an unrecognised entry, if any.
   */
  datatype Decoded = Decoded(value: bool, heal: Option<string>)

  function DecodeStored(stored: Option<string>, defaultExpanded: bool): (d: Decoded)
    // an entry is rewritten exactly when it is present and not "true"/"false"
    ensures d.heal.Some? <==> stored.Some? && !IsEncoding(stored.value)
    // healing writes the default, and the flag is then the default
    ensures d.heal.Some? ==> d.heal.value == Encode(defaultExpanded) && d.value == defaultExpanded
    // a missing entry gives the default without a write
    ensures stored.None? ==> d.value == defaultExpanded
    // a recognised entry is decoded: encoding the flag gives the stored string back
    ensures stored.Some? && IsEncoding(stored.value) ==> Encode(d.value) == stored.value
  {
    match stored
    case None => Decoded(defaultExpanded, None)
    case Some(s) =>
      if s == "true" then Decoded(true, None)
      else if s == "false" then Decoded(false, None)
      else Decoded(defaultExpanded, Some(Encode(defaultExpanded)))
  }

  /** Decoding what `String(b)` wrote gives `b`, whatever the default, and writes nothing. */
  lemma DecodeEncodeRoundTrip(b: bool, defaultExpanded: bool)
    ensures DecodeStored(Some(Encode(b)), defaultExpanded) == Decoded(b, None)
  {
  }

  /**
   * Self-healing is stable: after the heal write, decoding the healed entry
   * needs no further heal and gives the same flag.
   */
  lemma HealIsStable(stored: Option<string>, defaultExpanded: bool)
    requires DecodeStored(stored, defaultExpanded).heal.Some?
    ensures DecodeStored(DecodeStored(stored, defaultExpanded).heal, defaultExpanded)
            == Decoded(DecodeStored(stored, defaultExpanded).value, None)
  {
    DecodeEncodeRoundTrip(defaultExpanded, defaultExpanded);
  }

  /** The key-value store, shared by every section and partitioned by key. */
  class LocalStore {
    var entries: map<string, string>

    constructor (entries: map<string, string>)
      ensures this.entries == entries
    {
      this.entries := entries;
    }
  }

  class ToggleState {
    const store: LocalStore
    const storageKey: string
    const defaultExpanded: bool
    var isExpanded: bool

    /** The store holds the encoding of the in-memory flag. */
    predicate Synced()
      reads this, store
    {
      Lookup(store.entries, storageKey) == Some(Encode(isExpanded))
    }

    /**
     * The `useState` initializer. `readFails` models `getItem` throwing and
     * `healWriteFails` models the heal `setItem` throwing; both are caught
     * and give the default. Only this section's key is ever written.
     */
    constructor (store: LocalStore, sectionName: string, defaultExpanded: bool,
                 readFails: bool, healWriteFails: bool)
      modifies store
      ensures this.store == store && storageKey == StorageKey(sectionName)
      ensures this.defaultExpanded == defaultExpanded
      ensures readFails ==> isExpanded == defaultExpanded && store.entries == old(store.entries)
      ensures !readFails ==>
        var d := DecodeStored(Lookup(old(store.entries), StorageKey(sectionName)), defaultExpanded);
        && isExpanded == d.value
        && store.entries == if d.heal.Some? && !healWriteFails
                            then old(store.entries)[StorageKey(sectionName) := d.heal.value]
                            else old(store.entries)
      ensures store.entries - {storageKey} == old(store.entries) - {storageKey}
    {
      this.store := store;
      this.defaultExpanded := defaultExpanded;
      var key := StorageKey(sectionName);
      this.storageKey := key;
      var value := defaultExpanded;
      if !readFails {
        var d := DecodeStored(Lookup(store.entries, key), defaultExpanded);
        value := d.value;
        if d.heal.Some? && !healWriteFails {
          store.entries := store.entries[key := d.heal.value];
        }
      }
      isExpanded := value;
    }

    /** The stable `toggle` callback: flips the in-memory flag only. */
    method Toggle()
      modifies this`isExpanded
      ensures isExpanded == !old(isExpanded)
    {
      isExpanded := !isExpanded;
    }

    /**
     * The persist effect: writes `String(isExpanded)` under this section's
     * key unless the write fails; the flag itself never changes and no
     * other key is touched.
     */
    method Persist(writeFails: bool)
      modifies store
      ensures store.entries == if writeFails then old(store.entries)
                               else old(store.entries)[storageKey := Encode(isExpanded)]
      ensures !writeFails ==> Synced()
      ensures store.entries - {storageKey} == old(store.entries) - {storageKey}
    {
      if !writeFails {
        store.entries := store.entries[storageKey := Encode(isExpanded)];
      }
    }
  }

  /**
   * Reload round trip: once the persist step succeeded, mounting the same
   * section again on the same store (with a working read) starts from the
   * persisted flag and writes nothing.
   */
  method Remount(t: ToggleState, sectionName: string, healWriteFails: bool) returns (u: ToggleState)
    requires t.Synced() && t.storageKey == StorageKey(sectionName)
    modifies t.store
    ensures u.isExpanded == t.isExpanded && u.store == t.store
    ensures t.store.entries == old(t.store.entries)
  {
    u := new ToggleState(t.store, sectionName, t.defaultExpanded, false, healWriteFails);
    DecodeEncodeRoundTrip(t.isExpanded, t.defaultExpanded);
  }

  /**
   * First use of a section with the default `true`: the flag is true, one
   * toggle gives false and a second gives true again, and each persist
   * step leaves the store in step with the flag.
   */
  method FirstUseToggleTwice(store: LocalStore, sectionName: string)
    requires StorageKey(sectionName) !in store.entries
    modifies store
    ensures Lookup(store.entries, StorageKey(sectionName)) == Some("true")
    ensures store.entries - {StorageKey(sectionName)} == old(store.entries) - {StorageKey(sectionName)}
  {
    var t := new ToggleState(store, sectionName, true, false, false);
    assert t.isExpanded;
    t.Persist(false);
    t.Toggle();
    assert !t.isExpanded;
    t.Persist(false);
    assert Lookup(store.entries, t.storageKey) == Some("false");
    t.Toggle();
    t.Persist(false);
  }
}
