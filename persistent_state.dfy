/**
 * `usePersistentState`: a state cell whose value is loaded from `localStorage` when the
 * component mounts and written back whenever it changes. The storage is a key-to-text
 * map shared by all cells; the absence of `window` (server rendering) is a null storage.
 */
module PersistentStore {
  import opened Wrappers

  /** `window.localStorage`: text entries under string keys. */
  class LocalStorage {
    var entries: map<string, string>

    constructor (entries: map<string, string>)
      ensures this.entries == entries
    {
      this.entries := entries;
    }

    /** `getItem(key)`: the stored text, or null. */
    function GetItem(key: string): (r: Option<string>)
      reads this
      ensures r.Some? <==> key in entries
      ensures r.Some? ==> r.value == entries[key]
    {
      if key in entries then Some(entries[key]) else None
    }

    /**
     * `setItem(key, text)`. A write can fail (the quota is full, storage is disabled);
     * `fails` says whether this one does, and a failed write changes nothing.
     */
    method SetItem(key: string, text: string, fails: bool)
      modifies this
      ensures fails ==> entries == old(entries)
      ensures !fails ==> entries == old(entries)[key := text]
    {
      if !fails {
        entries := entries[key := text];
      }
    }
  }

  /**
   * The initializer of the cell: with no stored entry, with text that does not parse
   * to a `T`, or with a value the guard rejects, the initial value; otherwise the
   * stored value. It has no failure of its own: a parse error falls back too.
   */
  function LoadValue<T>(stored: Option<string>, initialValue: T, parse: string -> Option<T>, isValid: T -> bool): (v: T)
    ensures stored.None? ==> v == initialValue
    ensures stored.Some? && parse(stored.value).None? ==> v == initialValue
    ensures stored.Some? && parse(stored.value).Some? ==>
      v == if isValid(parse(stored.value).value) then parse(stored.value).value else initialValue
  {
    if stored.None? then initialValue
    else
      var parsed := parse(stored.value);
      if parsed.Some? && isValid(parsed.value) then parsed.value else initialValue
  }

  /** A loaded value is always acceptable when the initial value is. */
  lemma LoadValueValid<T>(stored: Option<string>, initialValue: T, parse: string -> Option<T>, isValid: T -> bool)
    requires isValid(initialValue)
    ensures isValid(LoadValue(stored, initialValue, parse, isValid))
  {
  }

  /**
   * Round trip: when reading back what `stringify` wrote gives the value, a value the
   * guard accepts loads back as itself.
   */
  lemma LoadWritten<T>(v: T, initialValue: T, parse: string -> Option<T>, stringify: T -> string, isValid: T -> bool)
    requires parse(stringify(v)) == Some(v) && isValid(v)
    ensures LoadValue(Some(stringify(v)), initialValue, parse, isValid) == v
  {
  }

  /**
   * What a cell's effect leaves in storage after its value goes from `before` to `after`:
   * React re-runs the effect only when the value changed, and it then writes the text of
   * the new value under the key. Every other key keeps its entry.
   */
  function EffectWrite<T(==)>(entries: map<string, string>, key: string, stringify: T -> string, before: T, after: T)
    : (r: map<string, string>)
    ensures before != after ==> key in r && r[key] == stringify(after)
    ensures before == after ==> r == entries
    ensures forall k :: k != key ==> (k in r <==> k in entries)
    ensures forall k :: k != key && k in entries ==> r[k] == entries[k]
  {
    if before != after then entries[key := stringify(after)] else entries
  }

  /**
   * One `usePersistentState(storageKey, initialValue, isValid)` cell. `parse` and
   * `stringify` are `JSON.parse` and `JSON.stringify` at type `T`: `parse` gives None
   * when `JSON.parse` throws or yields a value of another type.
   */
  class PersistentState<T(==)> {
    const storageKey: string
    const initialValue: T
    const parse: string -> Option<T>
    const stringify: T -> string
    const isValid: T -> bool
    /** The page's storage, or null when there is no `window`. */
    const storage: LocalStorage?
    var value: T

    /** After a write: the storage holds the text of the current value under the key. */
    ghost predicate Persisted()
      reads this, storage
    {
      storage != null ==> storageKey in storage.entries && storage.entries[storageKey] == stringify(value)
    }

    /**
     * The state initializer: without storage, or when reading the entry throws (storage
     * disabled or blocked, `readFails`), the initial value; otherwise the value loaded
     * from the entry under the key. Nothing is written yet.
     */
    constructor (storageKey: string, initialValue: T, parse: string -> Option<T>, stringify: T -> string,
                 isValid: T -> bool, storage: LocalStorage?, readFails: bool)
      ensures this.storageKey == storageKey && this.initialValue == initialValue
      ensures this.parse == parse && this.stringify == stringify && this.isValid == isValid
      ensures this.storage == storage
      ensures storage == null || readFails ==> value == initialValue
      ensures storage != null && !readFails ==> value == LoadValue(storage.GetItem(storageKey), initialValue, parse, isValid)
    {
      this.storageKey := storageKey;
      this.initialValue := initialValue;
      this.parse := parse;
      this.stringify := stringify;
      this.isValid := isValid;
      this.storage := storage;
      if storage != null && !readFails {
        value := LoadValue(storage.GetItem(storageKey), initialValue, parse, isValid);
      } else {
        value := initialValue;
      }
    }

    /**
     * The effect: the text of the current value is written under the key, which on mount
     * replaces a missing, corrupt or rejected entry. No other key changes, and a failed
     * write is swallowed.
     */
    method Persist(writeFails: bool)
      modifies storage
      ensures storage != null && !writeFails ==> storage.entries == old(storage.entries)[storageKey := stringify(value)]
      ensures storage != null && writeFails ==> storage.entries == old(storage.entries)
      ensures !writeFails ==> Persisted()
    {
      if storage != null {
        storage.SetItem(storageKey, stringify(value), writeFails);
      }
    }

    /**
     * The setter. Its static type `T` admits only values the guard accepts. React re-runs
     * the effect only when the value changed, so only then is the new text written.
     * The held value is the new one even when the write fails.
     */
    method SetValue(v: T, writeFails: bool)
      requires isValid(v)
      modifies this, storage
      ensures value == v
      ensures storage != null && !writeFails ==>
        storage.entries == EffectWrite(old(storage.entries), storageKey, stringify, old(value), v)
      ensures storage != null && writeFails ==> storage.entries == old(storage.entries)
      ensures old(Persisted()) && !writeFails ==> Persisted()
    {
      var changed := value != v;
      value := v;
      if changed {
        Persist(writeFails);
      }
    }
  }

  /** Remounting over storage that holds the current value's text loads that value again. */
  lemma Reload<T>(cell: PersistentState<T>)
    requires cell.storage != null && cell.Persisted()
    requires cell.parse(cell.stringify(cell.value)) == Some(cell.value) && cell.isValid(cell.value)
    ensures LoadValue(cell.storage.GetItem(cell.storageKey), cell.initialValue, cell.parse, cell.isValid) == cell.value
  {
    LoadWritten(cell.value, cell.initialValue, cell.parse, cell.stringify, cell.isValid);
  }
}
