/** `PropertyList`: asks the prediction service for the listings priced below their
    prediction that match the search criteria, and shows them as cards. The state is
    the component's three `useState` hooks; an effect run is one `fetch` whose outcome
    is given as a parameter. */
module PropertyList {
  import opened Options
  import opened Records
  import opened Fetch
  import opened Requests
  import opened Session

  datatype State = State(properties: seq<Listing>, loading: bool, error: Option<string>)

  /** No listings, loading, no error. */
  const Initial: State := State([], true, None)

  const ListFallback: string := "Failed to fetch properties"

  /** `fetchProperties` after its `fetch` settles: an ok response whose body parsed
      replaces the listings; any other outcome records an error message; `loading`
      ends false either way. */
  function Resolve(s: State, f: Fetched<seq<Listing>>): (r: State)
    ensures !r.loading
    ensures f.Received? && f.response.ok && f.response.json.Parsed? ==>
              r == State(f.response.json.data, false, s.error)
    ensures f.Received? && !f.response.ok && f.response.json.Parsed? ==>
              r == State(s.properties, false, Some(MessageOr(f.response.json.message, ListFallback)))
    ensures f.Received? && f.response.json.Malformed? ==>
              r == State(s.properties, false, Some(f.response.json.syntaxError))
    ensures f.Rejected? ==> r == State(s.properties, false, Some(Caught(f.reason, GenericError)))
  {
    match SettleJson(f, ListFallback)
    case Succeeded(listings) => s.(properties := listings, loading := false)
    case Failed(message) => s.(error := Some(message), loading := false)
  }

  /** What one card shows of a listing; the badge is the searched property type. */
  datatype Card = Card(
    title: string,
    location: string,
    price: int,
    description: string,
    bedrooms: string,
    bathrooms: string,
    sizeSqft: string,
    badge: string)

  function CardFor(l: Listing, criteria: FormData): Card {
    Card(l.title, l.location, l.price, l.description, l.bedrooms, l.bathrooms, l.sizeSqft, criteria.propertyType)
  }

  /** A spinner, the error text, or the grid of cards with the "No properties found"
      line shown below it when `noneFound`. */
  datatype View = Spinner | ErrorText(message: string) | Grid(cards: seq<Card>, noneFound: bool)

  /** Render precedence: loading, then a truthy error, then the list. */
  function Render(s: State, criteria: FormData): (v: View)
    ensures s.loading <==> v.Spinner?
    ensures v.ErrorText? <==> !s.loading && Truthy(s.error)
    ensures v.ErrorText? ==> v.message == s.error.value
    ensures v.Grid? ==> |v.cards| == |s.properties|
    ensures v.Grid? ==> forall i :: 0 <= i < |s.properties| ==> v.cards[i] == CardFor(s.properties[i], criteria)
    ensures v.Grid? ==> (v.noneFound <==> s.properties == [])
  {
    if s.loading then Spinner
    else if Truthy(s.error) then ErrorText(s.error.value)
    else
      Grid(seq(|s.properties|, i requires 0 <= i < |s.properties| => CardFor(s.properties[i], criteria)),
           |s.properties| == 0)
  }

  /** The grid built for a list of listings. */
  function GridFor(listings: seq<Listing>, criteria: FormData): View {
    Grid(seq(|listings|, i requires 0 <= i < |listings| => CardFor(listings[i], criteria)), listings == [])
  }

  /** From the initial state, a settled fetch is shown as exactly one thing: the
      listings it returned, or its error message. The one exception is an `Error`
      with an empty message, which `if (error)` treats as no error, so the empty
      initial list is shown as "No properties found". */
  lemma {:induction false} InitialSettlesOnce(criteria: FormData, f: Fetched<seq<Listing>>)
    ensures Render(Initial, criteria) == Spinner
    ensures var settled := SettleJson(f, ListFallback);
            var v := Render(Resolve(Initial, f), criteria);
            && (settled.Succeeded? ==> v == GridFor(settled.data, criteria))
            && (settled.Failed? && settled.message != "" ==> v == ErrorText(settled.message))
            && (settled.Failed? && settled.message == "" ==> v == Grid([], true))
  {
    var v := Render(Resolve(Initial, f), criteria);
    var settled := SettleJson(f, ListFallback);
    if settled.Succeeded? {
      assert Resolve(Initial, f) == State(settled.data, false, None);
      assert v.cards == GridFor(settled.data, criteria).cards;
    }
  }

  /** An ok answer with no listings is a success showing "No properties found", not an error. */
  lemma EmptyAnswerIsNoneFound(criteria: FormData, status: nat, text: string, message: Option<string>)
    ensures var f := Received(Response(true, status, text, Parsed([], message)));
            Render(Resolve(Initial, f), criteria) == Grid([], true)
  {
  }

  /** A status-500 answer carrying `{message: "db down"}` shows exactly that message. */
  lemma ServerMessageIsShown(criteria: FormData, text: string)
    ensures var f := Received(Response(false, 500, text, Parsed([], Some("db down"))));
            Resolve(Initial, f).error == Some("db down") &&
            Render(Resolve(Initial, f), criteria) == ErrorText("db down")
  {
  }

  /** Once an error is shown it stays: no later outcome clears `error`. */
  lemma ErrorIsNeverCleared(s: State, f: Fetched<seq<Listing>>, criteria: FormData)
    requires Truthy(s.error)
    ensures Resolve(s, f).error.Some?
    ensures SettleJson(f, ListFallback).Succeeded? ==>
              Resolve(s, f).error == s.error && Render(Resolve(s, f), criteria) == ErrorText(s.error.value)
  {
  }

  /** `handleViewDetails`: the listing, SHAP contributions included, is stored under
      `selectedProperty`, and the page navigates to `/property/<id>`. */
  function ViewDetails(store: Store, l: Listing): (r: (Store, string))
    ensures LoadListing(r.0) == Loaded(l)
    ensures LoadForm(r.0) == LoadForm(store)
    ensures forall k :: k != SelectedPropertyKey ==> GetItem(r.0, k) == GetItem(store, k)
    ensures r.1 == "/property/" + l.id
  {
    LoadAfterSaveListing(store, l);
    (SaveListing(store, l), "/property/" + l.id)
  }

  /** The request bodies sent over a run of renders: the effect fires on mount and
      again only when the criteria differ from the previous render's. */
  function RequestsAfter(previous: Option<FormData>, renders: seq<FormData>): seq<SearchBody>
    decreases |renders|
  {
    if |renders| == 0 then []
    else
      (if previous != Some(renders[0]) then [SearchBodyFor(renders[0])] else []) +
      RequestsAfter(Some(renders[0]), renders[1..])
  }

  /** Re-rendering with unchanged criteria issues no request. */
  lemma {:induction false} UnchangedCriteriaNoRefetch(criteria: FormData, renders: seq<FormData>)
    requires forall i :: 0 <= i < |renders| ==> renders[i] == criteria
    ensures RequestsAfter(Some(criteria), renders) == []
  {
    if |renders| > 0 {
      UnchangedCriteriaNoRefetch(criteria, renders[1..]);
    }
  }

  /** Mounting and re-rendering any number of times with the same criteria issues
      exactly one request, for those criteria. */
  lemma {:induction false} MountFetchesOnce(criteria: FormData, renders: seq<FormData>)
    requires |renders| > 0
    requires forall i :: 0 <= i < |renders| ==> renders[i] == criteria
    ensures RequestsAfter(None, renders) == [SearchBodyFor(criteria)]
  {
    var tail := renders[1..];
    assert forall i :: 0 <= i < |tail| ==> tail[i] == renders[i + 1];
    UnchangedCriteriaNoRefetch(criteria, tail);
    assert RequestsAfter(None, renders) == [SearchBodyFor(renders[0])] + RequestsAfter(Some(renders[0]), tail);
  }

  /** A change of criteria between two renders issues one request, for the new criteria. */
  lemma ChangedCriteriaRefetch(a: FormData, b: FormData)
    requires a != b
    ensures RequestsAfter(None, [a, b]) == [SearchBodyFor(a), SearchBodyFor(b)]
  {
    var renders := [a, b];
    assert renders[1..] == [b];
    assert [b][1..] == [];
    assert RequestsAfter(Some(b), []) == [];
    assert RequestsAfter(Some(a), [b]) == [SearchBodyFor(b)];
  }
}
