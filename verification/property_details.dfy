/** `PropertyDetails`: shows the listing stored under `selectedProperty`, its SHAP
    explanation, and cheaper places to look, fetched for that listing. */
module PropertyDetails {
  import opened Options
  import opened Text
  import opened Records
  import opened Fetch
  import opened Requests
  import opened Session
  import opened Explanation
  import opened Sampler

  datatype State = State(
    property: Option<Listing>,
    cheaper: Option<CheaperData>,
    loading: bool,
    cheaperLoading: bool,
    cheaperError: Option<string>)

  /** Nothing loaded yet: the page shows its spinner. */
  const Initial: State := State(None, None, true, false, None)

  /** The mount effect's outcome: the state after it and the cheaper-locations request
      it sent, if any; or the uncaught exception of `JSON.parse` on unreadable text. */
  datatype Mount = Mounted(state: State, request: Option<SearchBody>) | Crash

  /** The mount effect. A stored listing is adopted and its cheaper-locations request
      starts at once (loading that subsection, clearing its error); with nothing stored
      the page just stops loading. Either way the page-level `loading` ends false. */
  function MountWith(store: Store): (m: Mount)
    ensures m.Crash? <==> LoadListing(store).Unparseable?
    ensures LoadListing(store).Absent? ==> m == Mounted(Initial.(loading := false), None)
    ensures LoadListing(store).Loaded? ==>
              var l := LoadListing(store).value;
              m == Mounted(State(Some(l), None, false, true, None), Some(CheaperBodyFor(l)))
  {
    match LoadListing(store)
    case Absent => Mounted(Initial.(loading := false), None)
    case Unparseable => Crash
    case Loaded(l) => Mounted(State(Some(l), None, false, true, None), Some(CheaperBodyFor(l)))
  }

  const HttpErrorLead: string := "HTTP error! status: "
  const MessageLead: string := ", message: "
  const UnknownError: string := "An unknown error occurred"

  /** The message thrown for a non-ok answer: its status and its body text. */
  function HttpError(status: nat, text: string): string {
    HttpErrorLead + ShowNat(status) + MessageLead + text
  }

  /** The status and the body text can both be read back from the message: the
      number after the lead parses to the status, and the body text ends the message. */
  lemma HttpErrorCarriesStatus(status: nat, text: string)
    ensures var m := HttpError(status, text);
            && |HttpErrorLead| <= |m|
            && ParseInt(m[|HttpErrorLead|..]) == Some(status)
            && m[|m| - |text|..] == text
  {
    var tail := MessageLead + text;
    assert tail[0] == ',';
    assert HttpError(status, text) == HttpErrorLead + ShowNat(status) + tail;
    ParseIntAfter(HttpErrorLead, status, tail);
  }


  /** Two non-ok answers give the same message only when their status and body text agree. */
  lemma HttpErrorInjective(s1: nat, t1: string, s2: nat, t2: string)
    requires HttpError(s1, t1) == HttpError(s2, t2)
    ensures s1 == s2 && t1 == t2
  {
    HttpErrorCarriesStatus(s1, t1);
    HttpErrorCarriesStatus(s2, t2);
    assert |ShowNat(s1)| == |ShowNat(s2)|;
    var m := HttpError(s1, t1);
    var k := |HttpErrorLead| + |ShowNat(s1)| + |MessageLead|;
    assert m[k..] == t1;
    assert HttpError(s2, t2)[k..] == t2;
  }

  /** `fetchCheaperLocations` after its `fetch` settles. A non-ok answer is reported
      with its status and body text; an ok one is stored as it decoded; a rejection
      or an undecodable body is reported by its message. The subsection stops
      loading either way, and nothing else in the page changes. */
  function SettleCheaper(s: State, f: Fetched<CheaperData>): (r: State)
    ensures !r.cheaperLoading
    ensures r.property == s.property && r.loading == s.loading
    ensures f.Received? && !f.response.ok ==>
              r.cheaperError == Some(HttpError(f.response.status, f.response.text)) && r.cheaper == s.cheaper
    ensures f.Received? && f.response.ok && f.response.json.Parsed? ==>
              r.cheaper == Some(f.response.json.data) && r.cheaperError == s.cheaperError
    ensures f.Received? && f.response.ok && f.response.json.Malformed? ==>
              r.cheaperError == Some(f.response.json.syntaxError) && r.cheaper == s.cheaper
    ensures f.Rejected? ==> r.cheaperError == Some(Caught(f.reason, UnknownError)) && r.cheaper == s.cheaper
  {
    var s := s.(cheaperLoading := false);
    match f
    case Rejected(reason) => s.(cheaperError := Some(Caught(reason, UnknownError)))
    case Received(response) =>
      if !response.ok then s.(cheaperError := Some(HttpError(response.status, response.text)))
      else match response.json
        case Malformed(e) => s.(cheaperError := Some(e))
        case Parsed(data, _) => s.(cheaper := Some(data))
  }

  /** A non-ok answer always leaves a visible error naming its status. */
  lemma NonOkNamesStatus(s: State, f: Fetched<CheaperData>)
    requires f.Received? && !f.response.ok
    ensures Truthy(SettleCheaper(s, f).cheaperError)
    ensures var m := SettleCheaper(s, f).cheaperError.value;
            |HttpErrorLead| <= |m| && ParseInt(m[|HttpErrorLead|..]) == Some(f.response.status)
  {
    HttpErrorCarriesStatus(f.response.status, f.response.text);
  }

  /** The cheaper-locations subsection: a spinner, the error, the locations with the
      predicted price, or "No cheaper locations found". */
  datatype CheaperView =
    | CheaperSpinner
    | CheaperErrorText(message: string)
    | Places(locations: seq<string>, predictedPrice: string)
    | NoPlaces

  /** The page: its spinner, "Property Not Found" (with a Go Back button, no redirect),
      or the listing with its factors section, when there is one, and the subsection. */
  datatype View =
    | Spinner
    | NotFound
    | Details(listing: Listing, factors: Option<Factors>, cheaper: CheaperView)

  /** One render. The `sort` in `randomCheaperLocations` shuffles the stored locations in place, so
      the render also returns the state with the locations in their new order; the
      ten-location sample it takes is never used, and the subsection lists every
      location in that new order. */
  function Render(s: State, draws: seq<nat>): (r: (View, State))
    ensures s.loading ==> r.0 == Spinner && r.1 == s
    ensures !s.loading && s.property.None? ==> r.0 == NotFound && r.1 == s
    ensures r.0.Details? <==> !s.loading && s.property.Some?
    ensures r.0.Details? ==> r.0.listing == s.property.value && r.0.factors == FactorsSection(s.property.value.shap)
    ensures r.0.Details? ==> (r.0.cheaper.CheaperSpinner? <==> s.cheaperLoading)
    ensures r.0.Details? && !s.cheaperLoading ==>
              (r.0.cheaper.CheaperErrorText? <==> Truthy(s.cheaperError))
    ensures r.0.Details? && r.0.cheaper.CheaperErrorText? ==> r.0.cheaper.message == s.cheaperError.value
    ensures r.0.Details? && !s.cheaperLoading && !Truthy(s.cheaperError) ==>
              (r.0.cheaper.Places? <==> s.cheaper.Some?) && (r.0.cheaper.NoPlaces? <==> s.cheaper.None?)
    ensures r.0.Details? && r.0.cheaper.Places? ==>
              && s.cheaper.Some?
              && multiset(r.0.cheaper.locations) == multiset(s.cheaper.value.locations)
              && |r.0.cheaper.locations| == |s.cheaper.value.locations|
              && r.0.cheaper.predictedPrice == s.cheaper.value.predictedPrice
              && r.1.cheaper == Some(s.cheaper.value.(locations := r.0.cheaper.locations))
    ensures r.1.property == s.property && r.1.loading == s.loading && r.1.cheaperLoading == s.cheaperLoading
    ensures r.1.cheaperError == s.cheaperError && r.1.cheaper.Some? == s.cheaper.Some?
    ensures r.1.cheaper.Some? ==> multiset(r.1.cheaper.value.locations) == multiset(s.cheaper.value.locations)
  {
    if s.loading then (Spinner, s)
    else if s.property.None? then (NotFound, s)
    else
      var l := s.property.value;
      var s' := if s.cheaper.Some? then s.(cheaper := Some(s.cheaper.value.(locations := Shuffle(s.cheaper.value.locations, draws)))) else s;
      var section :=
        if s'.cheaperLoading then CheaperSpinner
        else if Truthy(s'.cheaperError) then CheaperErrorText(s'.cheaperError.value)
        else if s'.cheaper.Some? then Places(s'.cheaper.value.locations, s'.cheaper.value.predictedPrice)
        else NoPlaces;
      (Details(l, FactorsSection(l.shap), section), s')
  }

  /** Renders repeated with successive draws: each one shuffles the stored locations again. */
  function RenderAll(s: State, rounds: seq<seq<nat>>): State
    decreases |rounds|
  {
    if |rounds| == 0 then s else RenderAll(Render(s, rounds[0]).1, rounds[1..])
  }

  /** However many times the page renders, the stored locations stay a rearrangement
      of what the service sent, and nothing else in the state moves. */
  lemma {:induction false} RendersKeepLocations(s: State, rounds: seq<seq<nat>>)
    ensures var t := RenderAll(s, rounds);
            && t.property == s.property && t.loading == s.loading
            && t.cheaperLoading == s.cheaperLoading && t.cheaperError == s.cheaperError
            && t.cheaper.Some? == s.cheaper.Some?
            && (t.cheaper.Some? ==> multiset(t.cheaper.value.locations) == multiset(s.cheaper.value.locations))
    decreases |rounds|
  {
    if |rounds| > 0 {
      RendersKeepLocations(Render(s, rounds[0]).1, rounds[1..]);
    }
  }

  /** The subsection lists all the locations, not the ten-location sample: with more
      than ten, more than ten are shown, while the sample would have kept ten. */
  lemma ShowsAllNotSample(s: State, draws: seq<nat>)
    requires !s.loading && s.property.Some? && !s.cheaperLoading && !Truthy(s.cheaperError)
    requires s.cheaper.Some? && |s.cheaper.value.locations| > MaxSuggestions
    ensures Render(s, draws).0.cheaper.Places?
    ensures |Render(s, draws).0.cheaper.locations| == |s.cheaper.value.locations| > MaxSuggestions
    ensures |Sample(s.cheaper.value.locations, draws)| == MaxSuggestions
  {
  }

  /** Any order of the locations can be the one shown. */
  lemma AnyOrderCanBeShown(s: State, order: seq<string>)
    requires !s.loading && s.property.Some? && !s.cheaperLoading && !Truthy(s.cheaperError)
    requires s.cheaper.Some? && multiset(order) == multiset(s.cheaper.value.locations)
    ensures exists draws :: Render(s, draws).0.cheaper == Places(order, s.cheaper.value.predictedPrice)
  {
    EveryPermutationIsReachable(s.cheaper.value.locations, order);
    var draws :| Shuffle(s.cheaper.value.locations, draws) == order;
    assert Render(s, draws).0.cheaper == Places(order, s.cheaper.value.predictedPrice);
  }

  /** With no stored listing the page shows "Property Not Found" and sends no request;
      it does not redirect. */
  lemma MissingListingIsNotFound(store: Store, draws: seq<nat>)
    requires SelectedPropertyKey !in store
    ensures MountWith(store).Mounted?
    ensures MountWith(store).request.None?
    ensures Render(MountWith(store).state, draws).0 == NotFound
  {
  }

  /** A listing chosen on the list page is shown here with the factors of its own
      SHAP contributions, and its cheaper-locations request is built from it. */
  lemma ChosenListingIsShown(store: Store, l: Listing, draws: seq<nat>)
    ensures var m := MountWith(SaveListing(store, l));
            && m.Mounted?
            && m.request == Some(CheaperBodyFor(l))
            && Render(m.state, draws).0 == Details(l, FactorsSection(l.shap), CheaperSpinner)
  {
    LoadAfterSaveListing(store, l);
  }
}
