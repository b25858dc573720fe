/** The records the components exchange with the prediction service and with each
    other. Field names follow the service's JSON keys; SHAP values and prices,
    floating-point numbers in the service, are integers here because only their
    sign, absolute value and order matter to the client. */
module Records {
  import opened Options

  /** One SHAP contribution: `{feature, influence, value, text}`. */
  datatype Contribution = Contribution(feature: string, influence: string, value: int, text: string)

  /** `SHAP_Contributions`: the factors that pushed the predicted price up and down. */
  datatype Attribution = Attribution(positive: seq<Contribution>, negative: seq<Contribution>)

  /** A listing as returned by `/listings-below-prediction` and kept under
      `selectedProperty`; `shap` is `None` when the service omitted `SHAP_Contributions`. */
  datatype Listing = Listing(
    id: string,
    title: string,
    price: int,
    location: string,
    description: string,
    link: string,
    bedrooms: string,
    bathrooms: string,
    sizeSqft: string,
    shap: Option<Attribution>)

  /** The signup form's six fields, all strings; also what is stored under
      `user_details` and read back as the search criteria. */
  datatype FormData = FormData(
    name: string,
    phoneNumber: string,
    propertyType: string,
    bedrooms: string,
    bathrooms: string,
    location: string)

  /** The body of a `/suggest-cheaper-locations` answer. */
  datatype CheaperData = CheaperData(predictedPrice: string, locations: seq<string>)
}
