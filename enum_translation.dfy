/**
 * The fixed table between the property-type codes the listing API speaks
 * (`HOUSE`, `APARTMENT`, `LAND`, `COMMERCIAL`) and the Portuguese labels the
 * filter forms show.  The two directions do not agree: `COMMERCIAL` has a
 * label, but the label `Comercial` has no way back.
 */
module EnumTranslation {
  import opened Wrappers

  /** The codes `translateEnumProperty` has a case for. */
  predicate IsKnownCode(code: string) {
    code == "HOUSE" || code == "APARTMENT" || code == "LAND" || code == "COMMERCIAL"
  }

  /** The labels `reverseTranslateEnumProperty` has a case for. */
  predicate IsReversibleLabel(display: string) {
    display == "Casa" || display == "Apartamento" || display == "Terreno"
  }

  /** `translateEnumProperty`: a code without a case falls out of the switch, giving `undefined`. */
  function Translate(code: string): (r: Option<string>)
    ensures r.Some? <==> IsKnownCode(code)
    ensures r.Some? ==> r.value != ""
  {
    if code == "HOUSE" then Some("Casa")
    else if code == "APARTMENT" then Some("Apartamento")
    else if code == "LAND" then Some("Terreno")
    else if code == "COMMERCIAL" then Some("Comercial")
    else None
  }

  /**
   * `reverseTranslateEnumProperty`: the argument may itself be `undefined`;
   * every input outside the three cases, `Comercial` included, gives `null`.
   * Where it is defined it undoes `Translate`.
   */
  function ReverseTranslate(display: Option<string>): (r: Option<string>)
    ensures r.Some? <==> display.Some? && IsReversibleLabel(display.value)
    ensures r.Some? ==> Translate(r.value) == display
  {
    if display == Some("Casa") then Some("HOUSE")
    else if display == Some("Apartamento") then Some("APARTMENT")
    else if display == Some("Terreno") then Some("LAND")
    else None
  }

  /** The forward table, case by case. */
  lemma TranslateTable()
    ensures Translate("HOUSE") == Some("Casa")
    ensures Translate("APARTMENT") == Some("Apartamento")
    ensures Translate("LAND") == Some("Terreno")
    ensures Translate("COMMERCIAL") == Some("Comercial")
  {
  }

  /** The reverse table, case by case, with its `null` for `Comercial` and `undefined`. */
  lemma ReverseTable()
    ensures ReverseTranslate(Some("Casa")) == Some("HOUSE")
    ensures ReverseTranslate(Some("Apartamento")) == Some("APARTMENT")
    ensures ReverseTranslate(Some("Terreno")) == Some("LAND")
    ensures ReverseTranslate(Some("Comercial")) == None
    ensures ReverseTranslate(None) == None
  {
  }

  /** Code -> label -> code returns the code for every known code except `COMMERCIAL`. */
  lemma CodeRoundTrip(code: string)
    ensures ReverseTranslate(Translate(code)) == Some(code) <==>
      IsKnownCode(code) && code != "COMMERCIAL"
  {
  }

  /** The one place where the round trip breaks. */
  lemma CommercialRoundTripFails()
    ensures Translate("COMMERCIAL").Some?
    ensures ReverseTranslate(Translate("COMMERCIAL")) == None
  {
  }

  /** Label -> code -> label returns the label for exactly the three reversible labels. */
  lemma LabelRoundTrip(display: string)
    ensures IsReversibleLabel(display) <==>
      ReverseTranslate(Some(display)).Some? && Translate(ReverseTranslate(Some(display)).value) == Some(display)
  {
  }

  /** Distinct codes get distinct labels. */
  lemma TranslateInjective(a: string, b: string)
    requires Translate(a).Some? && Translate(a) == Translate(b)
    ensures a == b
  {
  }
}
