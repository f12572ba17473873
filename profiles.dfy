/** The submission record (`Profile`) and its one required-field check. */
module Profiles {
  import opened Wrappers

  /** A JSON value, as Go decodes one into `interface{}`. */
  datatype Json =
    | JNull
    | JBool(b: bool)
    | JNumber(n: int)
    | JString(s: string)
    | JArray(items: seq<Json>)
    | JObject(fields: map<string, Json>)

  /** `Text` is a pointer in the source: `None` is a request whose "text" field
      was absent or null. `Metadata` is an arbitrary JSON object. */
  datatype Profile = Profile(text: Option<string>, metadata: map<string, Json>)

  const TextRequired: string := "The field \"text\" is required"

  /** The messages `ValidateProfile` reports: one message exactly when the text
      is missing, whatever the text or the metadata hold otherwise. */
  function ValidationErrors(p: Profile): (errs: seq<string>)
    ensures |errs| <= 1
    ensures errs == [] <==> p.text.Some?
    ensures p.text.None? ==> errs == [TextRequired]
  {
    if p.text.None? then [TextRequired] else []
  }

  /** The metadata bag never influences validation. */
  lemma MetadataIgnored(p: Profile, metadata: map<string, Json>)
    ensures ValidationErrors(p.(metadata := metadata)) == ValidationErrors(p)
  {
  }

  /** `ValidateProfile`: start from no messages and append one per missing
      required field. */
  method ValidateProfile(p: Profile) returns (errMsgs: seq<string>)
    ensures errMsgs == ValidationErrors(p)
  {
    errMsgs := [];
    if p.text.None? {
      errMsgs := errMsgs + [TextRequired];
    }
  }
}
