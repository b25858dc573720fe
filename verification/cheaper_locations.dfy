/** `CheaperLocations`: the stand-alone card that asks once, with a fixed profile,
    for cheaper places to look, and lists them. */
module CheaperLocations {
  import opened Options
  import opened Records
  import opened Fetch
  import opened Requests

  datatype State = State(data: Option<CheaperData>, loading: bool, error: Option<string>)

  /** No data, loading, no error. */
  const Initial: State := State(None, true, None)

  const CheaperFallback: string := "Failed to fetch cheaper locations"

  /** `fetchCheaperLocations` after its `fetch` settles. */
  function Resolve(s: State, f: Fetched<CheaperData>): (r: State)
    ensures !r.loading
    ensures f.Received? && f.response.ok && f.response.json.Parsed? ==>
              r == State(Some(f.response.json.data), false, s.error)
    ensures f.Received? && !f.response.ok && f.response.json.Parsed? ==>
              r == State(s.data, false, Some(MessageOr(f.response.json.message, CheaperFallback)))
    ensures f.Received? && f.response.json.Malformed? ==>
              r == State(s.data, false, Some(f.response.json.syntaxError))
    ensures f.Rejected? ==> r == State(s.data, false, Some(Caught(f.reason, GenericError)))
  {
    match SettleJson(f, CheaperFallback)
    case Succeeded(d) => s.(data := Some(d), loading := false)
    case Failed(message) => s.(error := Some(message), loading := false)
  }

  /** `Loading...`, `Error: <message>`, nothing at all, or the card. */
  datatype View = Loading | ErrorView(message: string) | Nothing | Suggestions(predictedPrice: string, items: seq<string>)

  /** Render precedence: loading, then a truthy error, then missing data, then the card
      with every location in the order received. */
  function Render(s: State): (v: View)
    ensures v.Loading? <==> s.loading
    ensures v.ErrorView? <==> !s.loading && Truthy(s.error)
    ensures v.ErrorView? ==> v.message == s.error.value
    ensures v.Nothing? <==> !s.loading && !Truthy(s.error) && s.data.None?
    ensures v.Suggestions? ==> v.predictedPrice == s.data.value.predictedPrice && v.items == s.data.value.locations
  {
    if s.loading then Loading
    else if Truthy(s.error) then ErrorView(s.error.value)
    else if s.data.None? then Nothing
    else Suggestions(s.data.value.predictedPrice, s.data.value.locations)
  }

  /** From the initial state the card shows what the one request returned: the
      locations in order on success, the error message otherwise (nothing at all
      for an `Error` whose message is empty). */
  lemma InitialSettlesOnce(f: Fetched<CheaperData>)
    ensures Render(Initial) == Loading
    ensures var settled := SettleJson(f, CheaperFallback);
            var v := Render(Resolve(Initial, f));
            && (settled.Succeeded? ==> v == Suggestions(settled.data.predictedPrice, settled.data.locations))
            && (settled.Failed? && settled.message != "" ==> v == ErrorView(settled.message))
            && (settled.Failed? && settled.message == "" ==> v == Nothing)
  {
  }
}
