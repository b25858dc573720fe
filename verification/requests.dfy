/** The request bodies sent to `/listings-below-prediction` and
    `/suggest-cheaper-locations`. Bedroom and bathroom counts go through `parseInt`;
    `None` stands for `NaN`, which `JSON.stringify` writes as `null`. */
module Requests {
  import opened Options
  import opened Text
  import opened Records

  datatype SearchBody = SearchBody(
    bedrooms: Option<int>,
    bathrooms: Option<int>,
    location: string,
    provinceCity: string,
    propertyType: string)

  /** The `Province_City` every request carries. */
  const ProvinceCity: string := "Ontario_Toronto"

  /** The listing search body built from the stored search criteria. */
  function SearchBodyFor(criteria: FormData): SearchBody {
    SearchBody(ParseInt(criteria.bedrooms), ParseInt(criteria.bathrooms),
               criteria.location, ProvinceCity, criteria.propertyType)
  }

  /** Counts typed as plain decimal numbers reach the service as those numbers;
      location and type are sent as typed. */
  lemma SearchBodyCarriesCriteria(criteria: FormData, bedrooms: nat, bathrooms: nat)
    requires criteria.bedrooms == ShowNat(bedrooms) && criteria.bathrooms == ShowNat(bathrooms)
    ensures SearchBodyFor(criteria) ==
              SearchBody(Some(bedrooms), Some(bathrooms), criteria.location,
                         "Ontario_Toronto", criteria.propertyType)
  {
    ParseIntShowInt(bedrooms);
    ParseIntShowInt(bathrooms);
  }

  /** The property type the cheaper-locations request derives from a listing's title. */
  function TypeFromTitle(title: string): (t: string)
    ensures t == "House" <==> Contains(title, "House")
    ensures t == "House" || t == "Condo"
  {
    if Contains(title, "House") then "House" else "Condo"
  }

  /** The cheaper-locations body built from the listing being viewed. */
  function CheaperBodyFor(l: Listing): SearchBody {
    SearchBody(ParseInt(l.bedrooms), ParseInt(l.bathrooms), l.location, ProvinceCity, TypeFromTitle(l.title))
  }

  /** The cheaper-locations body copies the listing's location, parses both of its
      counts, always names Ontario_Toronto, and asks for a house exactly when "House"
      occurs somewhere in the title. */
  lemma CheaperBodyShape(l: Listing)
    ensures CheaperBodyFor(l).location == l.location
    ensures CheaperBodyFor(l).provinceCity == "Ontario_Toronto"
    ensures CheaperBodyFor(l).propertyType == "House" <==> exists i: nat :: OccursAt(l.title, "House", i)
    ensures CheaperBodyFor(l).propertyType != "House" ==> CheaperBodyFor(l).propertyType == "Condo"
    ensures CheaperBodyFor(l).bedrooms == ParseInt(l.bedrooms)
    ensures CheaperBodyFor(l).bathrooms == ParseInt(l.bathrooms)
  {
    ContainsIff(l.title, "House");
  }

  /** The fixed body of the stand-alone cheaper-locations card. */
  const FixedCheaperBody: SearchBody := SearchBody(Some(3), Some(2), "Toronto", ProvinceCity, "House")

  /** The stand-alone card asks about the same profile as a search for a
      three-bedroom, two-bathroom house in Toronto. */
  lemma FixedBodyIsSearchFor(criteria: FormData)
    requires criteria.bedrooms == "3" && criteria.bathrooms == "2"
    requires criteria.location == "Toronto" && criteria.propertyType == "House"
    ensures SearchBodyFor(criteria) == FixedCheaperBody
  {
    assert ShowNat(3) == "3";
    assert ShowNat(2) == "2";
    SearchBodyCarriesCriteria(criteria, 3, 2);
  }
}
