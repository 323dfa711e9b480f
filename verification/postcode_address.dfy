/**
 How the form turns the address-lookup widget's completion payload into the
 postal code and the single address line kept in the draft
 (`handleComplete` in ConsentForm.jsx).
 */
module PostcodeAddress {
  import opened Text

  /** The completion payload of the lookup widget: the base address line,
      the address-type discriminator ("R" for a road-name address, "J" for
      a lot-number one), the neighbourhood name, the building name and the
      postal code. Every field may be empty. */
  datatype LookupResult = LookupResult(
    address: string,
    addressType: string,
    bname: string,
    buildingName: string,
    zonecode: string)

  /** The discriminator of a road-name address. */
  const RoadName: string := "R"

  /** The separator placed between the neighbourhood and the building name. */
  const ExtraSeparator: string := ", "

  /** The disambiguating text of a road-name address, built the way the form
      builds it: the neighbourhood name if present, then the building name if
      present, with a separator only when both are there. */
  function ExtraAddress(bname: string, buildingName: string): (extra: string)
    ensures extra == "" <==> bname == "" && buildingName == ""
    ensures bname != "" ==> bname <= extra
    ensures |extra| == |bname| + |buildingName| + (if bname != "" && buildingName != "" then |ExtraSeparator| else 0)
  {
    if buildingName != "" then
      (if bname != "" then bname + ExtraSeparator + buildingName else buildingName)
    else
      bname
  }

  /** The address line stored in the draft for a lookup result: the base
      address, followed for a road-name address by " (extra)" when the
      extra text is non-empty. */
  function ComposeAddress(r: LookupResult): (full: string)
    ensures r.address <= full
    ensures r.addressType != RoadName ==> full == r.address
    ensures full == r.address <==> r.addressType != RoadName || (r.bname == "" && r.buildingName == "")
  {
    if r.addressType == RoadName then
      var extra := ExtraAddress(r.bname, r.buildingName);
      r.address + (if extra != "" then " (" + extra + ")" else "")
    else
      r.address
  }

  /** Reference definition of the suffix: the non-empty names among
      `parts`, joined by the separator and parenthesised, or nothing at all
      when no name is left. */
  function ParenthesisedSuffix(parts: seq<string>): string {
    var joined := Join(NonEmpty(parts), ExtraSeparator);
    if joined == "" then "" else " (" + joined + ")"
  }

  /** The form's step-by-step construction of the extra text is the join
      of the non-empty names among [neighbourhood, building], in that
      order. */
  lemma ExtraAddressIsJoinOfNonEmpty(bname: string, buildingName: string)
    ensures ExtraAddress(bname, buildingName) == Join(NonEmpty([bname, buildingName]), ExtraSeparator)
  {
  }

  /** The composed address agrees with the reference definition on every
      lookup result: a road-name address gets exactly the parenthesised
      join of its non-empty names, any other address gets no suffix. */
  lemma ComposeAddressMatchesReference(r: LookupResult)
    ensures ComposeAddress(r)
         == r.address + (if r.addressType == RoadName then ParenthesisedSuffix([r.bname, r.buildingName]) else "")
  {
    ExtraAddressIsJoinOfNonEmpty(r.bname, r.buildingName);
  }

  /** Worked examples: a road-name address with both names, with only the
      building name, and a lot-number address, which gets no suffix. */
  lemma RoadNameExamples()
    ensures ComposeAddress(LookupResult("테헤란로 1", "R", "역삼동", "타워", "06236")) == "테헤란로 1 (역삼동, 타워)"
    ensures ComposeAddress(LookupResult("테헤란로 1", "R", "", "타워", "06236")) == "테헤란로 1 (타워)"
    ensures ComposeAddress(LookupResult("테헤란로 1", "J", "역삼동", "타워", "06236")) == "테헤란로 1"
  {
  }
}
