/** The text form of the records kept in the session store. The components write
    them with `JSON.stringify` and read them with `JSON.parse`; what the client relies
    on is only that parsing gives back exactly the record that was written. This
    module stands in for that pair with a length-prefixed encoding (a string is its
    decimal length, a `:`, then its characters) and proves the round trip.

    Every encoder takes the text that follows it (`rest`) and every decoder returns
    the text left after it, so records compose without reassociating sequences. */
module Codec {
  import opened Options
  import opened Text
  import opened Records

  // ---------------------------------------------------------------------------
  // Strings and integers
  // ---------------------------------------------------------------------------

  function PutStr(s: string, rest: string): (t: string)
    ensures |t| > |rest|
  {
    ShowNat(|s|) + [':'] + s + rest
  }

  /** Reads one length-prefixed string; what is left is strictly shorter than `t`. */
  function GetStr(t: string): (r: Option<(string, string)>)
    ensures r.Some? ==> |r.value.1| < |t|
  {
    var digits := LeadingDigits(t, 10);
    var start := |digits| + 1;
    if |digits| == 0 || |t| < start || t[|digits|] != ':' then None
    else
      var n := DigitsValue(digits, 10);
      if |t| - start < n then None else Some((t[start..start + n], t[start + n..]))
  }

  lemma GetPutStr(s: string, rest: string)
    ensures GetStr(PutStr(s, rest)) == Some((s, rest))
  {
    var shown := ShowNat(|s|);
    var t := PutStr(s, rest);
    assert t == shown + ([':'] + s + rest);
    LeadingDigitsOf(shown, [':'] + s + rest, 10);
    ShowNatValue(|s|);
    var start := |shown| + 1;
    assert t[start..start + |s|] == s;
    assert t[start + |s|..] == rest;
  }

  function PutInt(i: int, rest: string): (t: string)
    ensures |t| > |rest|
  {
    PutStr(ShowInt(i), rest)
  }

  function GetInt(t: string): (r: Option<(int, string)>)
    ensures r.Some? ==> |r.value.1| < |t|
  {
    var p :- GetStr(t);
    var i :- ParseInt(p.0);
    Some((i, p.1))
  }

  lemma GetPutInt(i: int, rest: string)
    ensures GetInt(PutInt(i, rest)) == Some((i, rest))
  {
    GetPutStr(ShowInt(i), rest);
    ParseIntShowInt(i);
  }

  // ---------------------------------------------------------------------------
  // SHAP contributions
  // ---------------------------------------------------------------------------

  function PutContribution(c: Contribution, rest: string): (t: string)
    ensures |t| > |rest|
  {
    PutStr(c.feature, PutStr(c.influence, PutInt(c.value, PutStr(c.text, rest))))
  }

  function GetContribution(t: string): (r: Option<(Contribution, string)>)
    ensures r.Some? ==> |r.value.1| < |t|
  {
    var feature :- GetStr(t);
    var influence :- GetStr(feature.1);
    var value :- GetInt(influence.1);
    var text :- GetStr(value.1);
    Some((Contribution(feature.0, influence.0, value.0, text.0), text.1))
  }

  lemma GetPutContribution(c: Contribution, rest: string)
    ensures GetContribution(PutContribution(c, rest)) == Some((c, rest))
  {
    var t3 := PutStr(c.text, rest);
    var t2 := PutInt(c.value, t3);
    var t1 := PutStr(c.influence, t2);
    GetPutStr(c.feature, t1);
    GetPutStr(c.influence, t2);
    GetPutInt(c.value, t3);
    GetPutStr(c.text, rest);
  }

  /** A list is a `+` before each item and a closing `.`. */
  function PutContributions(cs: seq<Contribution>, rest: string): (t: string)
    ensures |t| > |rest|
  {
    if cs == [] then ['.'] + rest else ['+'] + PutContribution(cs[0], PutContributions(cs[1..], rest))
  }

  function GetContributions(t: string): (r: Option<(seq<Contribution>, string)>)
    ensures r.Some? ==> |r.value.1| < |t|
    decreases |t|
  {
    if |t| == 0 then None
    else if t[0] == '.' then Some(([], t[1..]))
    else if t[0] != '+' then None
    else
      var head :- GetContribution(t[1..]);
      var tail :- GetContributions(head.1);
      Some(([head.0] + tail.0, tail.1))
  }

  /** One step of list decoding: an item, then the rest of the list. */
  lemma GetContributionsStep(t: string, c: Contribution, after: string, cs: seq<Contribution>, rest: string)
    requires |t| > 0 && t[0] == '+'
    requires GetContribution(t[1..]) == Some((c, after))
    requires GetContributions(after) == Some((cs, rest))
    ensures GetContributions(t) == Some(([c] + cs, rest))
  {
  }

  /** A non-empty list is written as a `+`, its first item, then the rest of the list. */
  lemma PutContributionsCons(c: Contribution, cs: seq<Contribution>, rest: string)
    ensures PutContributions([c] + cs, rest) == ['+'] + PutContribution(c, PutContributions(cs, rest))
  {
    var all := [c] + cs;
    assert all != [] && all[0] == c && all[1..] == cs;
  }

  lemma {:induction false} GetPutContributions(cs: seq<Contribution>, rest: string)
    ensures GetContributions(PutContributions(cs, rest)) == Some((cs, rest))
  {
    if cs == [] {
      var t := PutContributions(cs, rest);
      assert t[0] == '.' && t[1..] == rest;
    } else {
      var c, tail := cs[0], cs[1..];
      assert cs == [c] + tail;
      var after := PutContributions(tail, rest);
      PutContributionsCons(c, tail, rest);
      var t := ['+'] + PutContribution(c, after);
      assert t[0] == '+' && t[1..] == PutContribution(c, after);
      GetPutContribution(c, after);
      GetPutContributions(tail, rest);
      GetContributionsStep(t, c, after, tail, rest);
    }
  }


  /** `SHAP_Contributions`, present (`1`) or absent (`0`). */
  function PutAttribution(a: Option<Attribution>, rest: string): (t: string)
    ensures |t| > |rest|
  {
    match a
    case None => ['0'] + rest
    case Some(x) => ['1'] + PutContributions(x.positive, PutContributions(x.negative, rest))
  }

  function GetAttribution(t: string): (r: Option<(Option<Attribution>, string)>)
    ensures r.Some? ==> |r.value.1| < |t|
  {
    if |t| == 0 then None
    else if t[0] == '0' then Some((None, t[1..]))
    else if t[0] != '1' then None
    else
      var positive :- GetContributions(t[1..]);
      var negative :- GetContributions(positive.1);
      Some((Some(Attribution(positive.0, negative.0)), negative.1))
  }

  lemma GetPutAttribution(a: Option<Attribution>, rest: string)
    ensures GetAttribution(PutAttribution(a, rest)) == Some((a, rest))
  {
    var t := PutAttribution(a, rest);
    if a.Some? {
      var after := PutContributions(a.value.negative, rest);
      assert t[0] == '1' && t[1..] == PutContributions(a.value.positive, after);
      GetPutContributions(a.value.positive, after);
      GetPutContributions(a.value.negative, rest);
    } else {
      assert t[0] == '0' && t[1..] == rest;
    }
  }

  // ---------------------------------------------------------------------------
  // Listings and form data
  // ---------------------------------------------------------------------------

  function PutListing(l: Listing, rest: string): (t: string)
    ensures |t| > |rest|
  {
    PutStr(l.id, PutStr(l.title, PutInt(l.price, PutStr(l.location, PutStr(l.description,
      PutStr(l.link, PutStr(l.bedrooms, PutStr(l.bathrooms, PutStr(l.sizeSqft,
      PutAttribution(l.shap, rest))))))))))
  }

  function GetListing(t: string): (r: Option<(Listing, string)>)
    ensures r.Some? ==> |r.value.1| < |t|
  {
    var id :- GetStr(t);
    var title :- GetStr(id.1);
    var price :- GetInt(title.1);
    var location :- GetStr(price.1);
    var description :- GetStr(location.1);
    var link :- GetStr(description.1);
    var bedrooms :- GetStr(link.1);
    var bathrooms :- GetStr(bedrooms.1);
    var size :- GetStr(bathrooms.1);
    var shap :- GetAttribution(size.1);
    Some((Listing(id.0, title.0, price.0, location.0, description.0, link.0,
                  bedrooms.0, bathrooms.0, size.0, shap.0), shap.1))
  }

  lemma GetPutListing(l: Listing, rest: string)
    ensures GetListing(PutListing(l, rest)) == Some((l, rest))
  {
    var t9 := PutAttribution(l.shap, rest);
    var t8 := PutStr(l.sizeSqft, t9);
    var t7 := PutStr(l.bathrooms, t8);
    var t6 := PutStr(l.bedrooms, t7);
    var t5 := PutStr(l.link, t6);
    var t4 := PutStr(l.description, t5);
    var t3 := PutStr(l.location, t4);
    var t2 := PutInt(l.price, t3);
    var t1 := PutStr(l.title, t2);
    GetPutStr(l.id, t1);
    GetPutStr(l.title, t2);
    GetPutInt(l.price, t3);
    GetPutStr(l.location, t4);
    GetPutStr(l.description, t5);
    GetPutStr(l.link, t6);
    GetPutStr(l.bedrooms, t7);
    GetPutStr(l.bathrooms, t8);
    GetPutStr(l.sizeSqft, t9);
    GetPutAttribution(l.shap, rest);
  }

  function PutForm(f: FormData, rest: string): (t: string)
    ensures |t| > |rest|
  {
    PutStr(f.name, PutStr(f.phoneNumber, PutStr(f.propertyType,
      PutStr(f.bedrooms, PutStr(f.bathrooms, PutStr(f.location, rest))))))
  }

  function GetForm(t: string): (r: Option<(FormData, string)>)
    ensures r.Some? ==> |r.value.1| < |t|
  {
    var name :- GetStr(t);
    var phone :- GetStr(name.1);
    var kind :- GetStr(phone.1);
    var bedrooms :- GetStr(kind.1);
    var bathrooms :- GetStr(bedrooms.1);
    var location :- GetStr(bathrooms.1);
    Some((FormData(name.0, phone.0, kind.0, bedrooms.0, bathrooms.0, location.0), location.1))
  }

  lemma GetPutForm(f: FormData, rest: string)
    ensures GetForm(PutForm(f, rest)) == Some((f, rest))
  {
    var t5 := PutStr(f.location, rest);
    var t4 := PutStr(f.bathrooms, t5);
    var t3 := PutStr(f.bedrooms, t4);
    var t2 := PutStr(f.propertyType, t3);
    var t1 := PutStr(f.phoneNumber, t2);
    GetPutStr(f.name, t1);
    GetPutStr(f.phoneNumber, t2);
    GetPutStr(f.propertyType, t3);
    GetPutStr(f.bedrooms, t4);
    GetPutStr(f.bathrooms, t5);
    GetPutStr(f.location, rest);
  }

  // ---------------------------------------------------------------------------
  // Whole documents: `JSON.stringify` and `JSON.parse`
  // ---------------------------------------------------------------------------

  /** `JSON.stringify(listing)`; never the empty (falsy) string. */
  function StringifyListing(l: Listing): (t: string)
    ensures |t| > 0
  {
    PutListing(l, [])
  }

  /** `JSON.parse` of a stored listing; `None` where `JSON.parse` would throw,
      including on trailing text. */
  function ParseListing(t: string): Option<Listing> {
    match GetListing(t)
    case Some((l, rest)) => if rest == [] then Some(l) else None
    case None => None
  }

  function StringifyForm(f: FormData): (t: string)
    ensures |t| > 0
  {
    PutForm(f, [])
  }

  function ParseForm(t: string): Option<FormData> {
    match GetForm(t)
    case Some((f, rest)) => if rest == [] then Some(f) else None
    case None => None
  }

  /** Parsing what was stringified gives back the same listing, SHAP contributions included. */
  lemma ListingRoundTrip(l: Listing)
    ensures ParseListing(StringifyListing(l)) == Some(l)
  {
    GetPutListing(l, []);
  }

  lemma FormRoundTrip(f: FormData)
    ensures ParseForm(StringifyForm(f)) == Some(f)
  {
    GetPutForm(f, []);
  }

  /** Distinct listings are stored as distinct texts. */
  lemma StringifyListingInjective(a: Listing, b: Listing)
    requires StringifyListing(a) == StringifyListing(b)
    ensures a == b
  {
    ListingRoundTrip(a);
    ListingRoundTrip(b);
  }
}
