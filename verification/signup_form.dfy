/** `SignupForm`: collects the six search-criteria fields, registers the user with
    the prediction service, and on success stores the user id and the criteria and
    moves on to the listings page. Alerts and navigation are returned as effects. */
module SignupForm {
  import opened Options
  import opened Records
  import opened Fetch
  import opened Session
  import opened Codec

  /** A choice offered by one of the form's selects. */
  datatype SelectOption = SelectOption(value: string, caption: string)

  const Locations: seq<SelectOption> := [
    SelectOption("Vancouver", "Vancouver"),
    SelectOption("Toronto", "Toronto"),
    SelectOption("Montreal", "Montreal"),
    SelectOption("Calgary", "Calgary"),
    SelectOption("Ottawa", "Ottawa"),
    SelectOption("Edmonton", "Edmonton"),
    SelectOption("Winnipeg", "Winnipeg"),
    SelectOption("Quebec City", "Quebec City"),
    SelectOption("Hamilton", "Hamilton"),
    SelectOption("Halifax", "Halifax")
  ]

  const PropertyTypes: seq<SelectOption> := [
    SelectOption("Condo", "Condo"),
    SelectOption("House", "House"),
    SelectOption("Townhouse", "Townhouse")
  ]

  /** The values a select offers, in order. */
  function Values(options: seq<SelectOption>): (r: seq<string>)
    ensures |r| == |options|
    ensures forall i :: 0 <= i < |options| ==> r[i] == options[i].value
  {
    seq(|options|, i requires 0 <= i < |options| => options[i].value)
  }

  /** Every option shows its own value. */
  predicate SelfLabelled(options: seq<SelectOption>) {
    forall i :: 0 <= i < |options| ==> options[i].caption == options[i].value
  }

  /** The location select offers the ten cities, in this order, each labelled by itself. */
  lemma LocationOptions()
    ensures SelfLabelled(Locations)
    ensures Values(Locations) == ["Vancouver", "Toronto", "Montreal", "Calgary", "Ottawa",
                                  "Edmonton", "Winnipeg", "Quebec City", "Hamilton", "Halifax"]
  {
  }

  /** The type select offers Condo, House and Townhouse, each labelled by itself. */
  lemma TypeOptions()
    ensures SelfLabelled(PropertyTypes)
    ensures Values(PropertyTypes) == ["Condo", "House", "Townhouse"]
  {
  }

  /** The form's inputs, by their `name` attribute. */
  datatype Field = Name | PhoneNumber | Type | Bedrooms | Bathrooms | Location

  function Get(f: FormData, k: Field): string {
    match k
    case Name => f.name
    case PhoneNumber => f.phoneNumber
    case Type => f.propertyType
    case Bedrooms => f.bedrooms
    case Bathrooms => f.bathrooms
    case Location => f.location
  }

  /** Two forms agreeing on every field are the same form. */
  lemma FieldsDetermineForm(a: FormData, b: FormData)
    requires forall k :: Get(a, k) == Get(b, k)
    ensures a == b
  {
    assert Get(a, Name) == Get(b, Name) && Get(a, PhoneNumber) == Get(b, PhoneNumber);
    assert Get(a, Type) == Get(b, Type) && Get(a, Bedrooms) == Get(b, Bedrooms);
    assert Get(a, Bathrooms) == Get(b, Bathrooms) && Get(a, Location) == Get(b, Location);
  }

  /** The state the form starts in: every field empty. */
  const InitialForm: FormData := FormData("", "", "", "", "", "")

  lemma InitialFormIsEmpty()
    ensures forall k :: Get(InitialForm, k) == ""
  {
  }

  /** `handleChange`: the field named by the event takes the event's value. */
  function HandleChange(f: FormData, k: Field, value: string): (r: FormData)
    ensures Get(r, k) == value
    ensures forall other :: other != k ==> Get(r, other) == Get(f, other)
  {
    match k
    case Name => f.(name := value)
    case PhoneNumber => f.(phoneNumber := value)
    case Type => f.(propertyType := value)
    case Bedrooms => f.(bedrooms := value)
    case Bathrooms => f.(bathrooms := value)
    case Location => f.(location := value)
  }

  /** `handleChange` is the only form that sets the field and keeps the others. */
  lemma HandleChangeIsTheUpdate(f: FormData, k: Field, value: string, g: FormData)
    ensures g == HandleChange(f, k, value) <==>
              Get(g, k) == value && forall other :: other != k ==> Get(g, other) == Get(f, other)
  {
    if Get(g, k) == value && forall other :: other != k ==> Get(g, other) == Get(f, other) {
      FieldsDetermineForm(g, HandleChange(f, k, value));
    }
  }

  /** Typing the same value into a field twice is the same as typing it once. */
  lemma HandleChangeIdempotent(f: FormData, k: Field, value: string)
    ensures HandleChange(HandleChange(f, k, value), k, value) == HandleChange(f, k, value)
  {
  }

  datatype Effect = Alert(message: string) | Navigate(path: string)

  const CreatedMessage: string := "User created successfully"
  const SignupFallback: string := "Something went wrong"

  /** A submission in flight: the body sent is the whole form, and the button shows as loading. */
  datatype Pending = Pending(body: FormData, isLoading: bool)

  function Start(form: FormData): (p: Pending)
    ensures p.isLoading
    ensures forall k :: Get(p.body, k) == Get(form, k)
  {
    Pending(form, true)
  }

  /** A finished submission: the store afterwards, the alerts and navigation in order, and the loading flag. */
  datatype Finished = Finished(store: Store, effects: seq<Effect>, isLoading: bool)

  /** `handleSubmit` after its `fetch` settles. The service answers `{user_id}`. */
  function Submit(form: FormData, store: Store, f: Fetched<string>): (r: Finished)
    ensures !r.isLoading
    ensures f.Received? && f.response.ok && f.response.json.Parsed? ==>
              && GetItem(r.store, UserIdKey) == Some(f.response.json.data)
              && LoadForm(r.store) == Loaded(form)
              && (forall k :: k != UserIdKey && k != UserDetailsKey ==> GetItem(r.store, k) == GetItem(store, k))
              && r.effects == [Alert(CreatedMessage), Navigate("/listings")]
    ensures f.Received? && !f.response.ok && f.response.json.Parsed? ==>
              r.store == store && r.effects == [Alert(MessageOr(f.response.json.message, SignupFallback))]
    ensures f.Received? && f.response.json.Malformed? ==>
              r.store == store && r.effects == [Alert(f.response.json.syntaxError)]
    ensures f.Rejected? ==> r.store == store && r.effects == [Alert(Caught(f.reason, GenericError))]
  {
    match SettleJson(f, SignupFallback)
    case Succeeded(userId) =>
      var withId := SetItem(store, UserIdKey, userId);
      LoadAfterSaveForm(withId, form);
      Finished(SaveForm(withId, form), [Alert(CreatedMessage), Navigate("/listings")], false)
    case Failed(message) =>
      Finished(store, [Alert(message)], false)
  }

  /** The store changes, and the page navigates, exactly when the registration succeeded. */
  lemma {:induction false} NavigatesOnlyOnSuccess(form: FormData, store: Store, f: Fetched<string>)
    ensures var r := Submit(form, store, f);
            (Navigate("/listings") in r.effects <==> SettleJson(f, SignupFallback).Succeeded?) &&
            (!SettleJson(f, SignupFallback).Succeeded? ==> r.store == store) &&
            (forall e :: e in r.effects && e.Navigate? ==> e.path == "/listings")
  {
  }
}
