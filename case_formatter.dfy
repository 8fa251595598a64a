/**
 * formatString: choose between upper-casing and locale-aware lower-casing.
 *
 * The two case mappings are library calls whose tables are not part of this
 * model, so they are parameters; what is modelled is which one is applied.
 */
module CaseFormatter {
  import opened Wrappers

  /**
   * `toUpper` is the optional boolean argument: `None` means it was omitted.
   * The upper-case branch is taken when the flag is `true` or omitted; only an
   * explicit `false` selects the locale-aware lower-case mapping.
   */
  function FormatString(input: string, toUpper: Option<bool>,
                        upperCase: string -> string,
                        localeLowerCase: string -> string): (r: string)
    ensures toUpper != Some(false) ==> r == upperCase(input)
    ensures toUpper == Some(false) ==> r == localeLowerCase(input)
  {
    match toUpper
    case None => upperCase(input)
    case Some(flag) => if flag == true then upperCase(input) else localeLowerCase(input)
  }

  /** Omitting the flag behaves exactly like passing `true`. */
  lemma OmittedFlagMeansUpper(input: string, upperCase: string -> string,
                              localeLowerCase: string -> string)
    ensures FormatString(input, None, upperCase, localeLowerCase)
         == FormatString(input, Some(true), upperCase, localeLowerCase)
  {
  }
}
