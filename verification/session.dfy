/** The browser's `localStorage` as the components use it: a map from string keys to
    string values, the only channel by which the search criteria and the selected
    listing travel from one page to the next. */
module Session {
  import opened Options
  import opened Records
  import opened Codec

  type Store = map<string, string>

  const UserIdKey: string := "user_id"
  const UserDetailsKey: string := "user_details"
  const SelectedPropertyKey: string := "selectedProperty"

  /** `localStorage.getItem(key)`, with `None` for `null`. */
  function GetItem(store: Store, key: string): Option<string> {
    if key in store then Some(store[key]) else None
  }

  /** `localStorage.setItem(key, value)`: the key now holds `value` and every other key keeps its value. */
  function SetItem(store: Store, key: string, value: string): (r: Store)
    ensures GetItem(r, key) == Some(value)
    ensures forall k :: k != key ==> GetItem(r, k) == GetItem(store, k)
  {
    store[key := value]
  }

  /** What a component gets when it reads a stored record: nothing usable (the key
      is missing or holds the empty, falsy string), the record, or text that
      `JSON.parse` rejects (it throws, and the component does not catch it). */
  datatype Loaded<T> = Absent | Loaded(value: T) | Unparseable

  function Load<T>(stored: Option<string>, parse: string -> Option<T>): Loaded<T> {
    if stored.None? || stored.value == "" then Absent
    else
      match parse(stored.value)
      case Some(v) => Loaded(v)
      case None => Unparseable
  }

  /** `localStorage.setItem('selectedProperty', JSON.stringify(property))`. */
  function SaveListing(store: Store, l: Listing): Store {
    SetItem(store, SelectedPropertyKey, StringifyListing(l))
  }

  /** Reading `selectedProperty` back. */
  function LoadListing(store: Store): Loaded<Listing> {
    Load(GetItem(store, SelectedPropertyKey), ParseListing)
  }

  /** `localStorage.setItem('user_details', JSON.stringify(formData))`. */
  function SaveForm(store: Store, f: FormData): Store {
    SetItem(store, UserDetailsKey, StringifyForm(f))
  }

  /** Reading `user_details` back. */
  function LoadForm(store: Store): Loaded<FormData> {
    Load(GetItem(store, UserDetailsKey), ParseForm)
  }

  /** A listing saved under `selectedProperty` is read back unchanged, and saving it
      leaves the stored search criteria alone. */
  lemma LoadAfterSaveListing(store: Store, l: Listing)
    ensures LoadListing(SaveListing(store, l)) == Loaded(l)
    ensures LoadForm(SaveListing(store, l)) == LoadForm(store)
  {
    ListingRoundTrip(l);
  }

  /** Search criteria saved under `user_details` are read back unchanged, and saving
      them leaves the selected listing alone. */
  lemma LoadAfterSaveForm(store: Store, f: FormData)
    ensures LoadForm(SaveForm(store, f)) == Loaded(f)
    ensures LoadListing(SaveForm(store, f)) == LoadListing(store)
  {
    FormRoundTrip(f);
  }

  /** A missing key always reads as absent, never as a guessed default. */
  lemma MissingKeyIsAbsent(store: Store)
    requires SelectedPropertyKey !in store
    ensures LoadListing(store) == Absent
  {
  }
}
