/** `ListingsPage`: reads the search criteria from the store, sends the user back to
    the signup page when there are none, and otherwise shows a summary line above the
    `PropertyList` for those criteria. */
module ListingsPage {
  import opened Options
  import opened Text
  import opened Records
  import opened Fetch
  import opened Requests
  import opened Session
  import opened Codec
  import SignupForm
  import PropertyList

  /** What the mount effect does: adopt the stored criteria, navigate to `/`, or
      crash on stored text `JSON.parse` rejects. */
  datatype Mount = Adopt(criteria: FormData) | Redirect(path: string) | ParseCrash

  /** The mount effect, from the store's `user_details`. */
  function LoadOrRedirect(store: Store): (m: Mount)
    ensures m.Redirect? <==> LoadForm(store).Absent?
    ensures m.Redirect? ==> m.path == "/"
    ensures m.Adopt? <==> LoadForm(store).Loaded?
    ensures m.Adopt? ==> m.criteria == LoadForm(store).value
  {
    match LoadForm(store)
    case Absent => Redirect("/")
    case Loaded(criteria) => Adopt(criteria)
    case Unparseable => ParseCrash
  }

  /** A spinner until criteria are adopted; then the summary line and the list. */
  datatype View = Spinner | Listings(summary: string, list: FormData)

  const SummaryLead: string := "Showing results for: "

  function Summary(c: FormData): string {
    SummaryLead + c.bedrooms + " bd, " + c.bathrooms + " ba, " + c.propertyType + " in " + c.location
  }

  /** The list is never shown without criteria; with criteria it is handed exactly
      those, and the summary shows the bedrooms, bathrooms, type and location verbatim. */
  function Render(details: Option<FormData>): (v: View)
    ensures v.Spinner? <==> details.None?
    ensures v.Listings? ==> v.list == details.value
    ensures v.Listings? ==>
              var c := details.value;
              var b := |SummaryLead|;
              var ba := b + |c.bedrooms| + 5;
              var t := ba + |c.bathrooms| + 5;
              var l := t + |c.propertyType| + 4;
              && OccursAt(v.summary, c.bedrooms, b)
              && OccursAt(v.summary, c.bathrooms, ba)
              && OccursAt(v.summary, c.propertyType, t)
              && OccursAt(v.summary, c.location, l)
              && l + |c.location| == |v.summary|
  {
    match details
    case None => Spinner
    case Some(c) =>
      var s := Summary(c);
      SummaryLayout(c);
      Listings(s, c)
  }

  /** Where each field sits in the summary line. */
  lemma SummaryLayout(c: FormData)
    ensures var s := Summary(c);
            var b := |SummaryLead|;
            var ba := b + |c.bedrooms| + 5;
            var t := ba + |c.bathrooms| + 5;
            var l := t + |c.propertyType| + 4;
            && OccursAt(s, c.bedrooms, b)
            && OccursAt(s, c.bathrooms, ba)
            && OccursAt(s, c.propertyType, t)
            && OccursAt(s, c.location, l)
            && l + |c.location| == |s|
  {
    var s := Summary(c);
    var b := |SummaryLead|;
    var ba := b + |c.bedrooms| + 5;
    var t := ba + |c.bathrooms| + 5;
    var l := t + |c.propertyType| + 4;
    assert s[b..b + |c.bedrooms|] == c.bedrooms;
    assert s[ba..ba + |c.bathrooms|] == c.bathrooms;
    assert s[t..t + |c.propertyType|] == c.propertyType;
    assert s[l..] == c.location;
  }

  /** Reading the criteria back at their positions recovers them: two criteria with
      the same summary and the same field lengths are the same criteria, up to the
      name and phone number, which the summary does not show. */
  lemma SummaryDeterminesShownFields(c: FormData, d: FormData)
    requires Summary(c) == Summary(d)
    requires |c.bedrooms| == |d.bedrooms| && |c.bathrooms| == |d.bathrooms| && |c.propertyType| == |d.propertyType|
    ensures c.bedrooms == d.bedrooms && c.bathrooms == d.bathrooms
    ensures c.propertyType == d.propertyType && c.location == d.location
  {
    SummaryLayout(c);
    SummaryLayout(d);
  }

  /** Signing up with three bedrooms, two bathrooms, a house in Toronto stores those
      criteria; the listings page then adopts them, and the list's one request asks
      for 3 and 2 as numbers, Toronto, Ontario_Toronto and House. */
  lemma {:induction false} SignupThenSearch(form: FormData, store: Store, f: Fetched<string>)
    requires form.bedrooms == "3" && form.bathrooms == "2"
    requires form.location == "Toronto" && form.propertyType == "House"
    requires f.Received? && f.response.ok && f.response.json.Parsed?
    ensures var after := SignupForm.Submit(form, store, f).store;
            LoadOrRedirect(after) == Adopt(form)
    ensures PropertyList.RequestsAfter(None, [form]) ==
              [SearchBody(Some(3), Some(2), "Toronto", "Ontario_Toronto", "House")]
  {
    FixedBodyIsSearchFor(form);
    assert [form][1..] == [];
  }

  /** Without stored criteria the page's only action is the move to `/`, and the list never renders. */
  lemma NoCriteriaRedirects(store: Store)
    requires UserDetailsKey !in store
    ensures LoadOrRedirect(store) == Redirect("/")
    ensures Render(None) == Spinner
  {
  }
}
