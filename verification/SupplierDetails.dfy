/**
 * The placeholder supplier details a seed fills an organisation in with: `backfillOrganisationSupplier` in
 * `packages/db/src/seed.ts`. It runs on every re-seed, over whatever an operator has typed by then.
 */
module SupplierDetails {

  import opened Wrappers

  /** `others` are the address, VAT number, company number and invoice footer, by column. */
  datatype Details = Details(legalName: Option<string>, country: Option<string>, others: map<string, string>)

  const LEGACY_COUNTRY_NAME := "United Kingdom"
  const LEGAL_NAME := "LaunchFlow Ltd"
  const COUNTRY := "GB"

  /** The second address line is written too, as null. */
  const OTHERS := map[
    "addressLine1" := "Placeholder — set on Settings → Organisation",
    "city" := "Grays",
    "postcode" := "RM17 0AA",
    "vatNumber" := "GB000000000",
    "companyNumber" := "00000000",
    "invoiceFooter" := "Placeholder invoice footer — set your bank details on Settings → Organisation."]

  const PLACEHOLDER := Details(Some(LEGAL_NAME), Some(COUNTRY), OTHERS)

  function Backfilled(d: Details): Details {
    if d.legalName.None? then PLACEHOLDER
    else if d.country == Some(LEGACY_COUNTRY_NAME) then d.(country := Some(COUNTRY))
    else d
  }

  class Organisation {
    var details: Details

    constructor (details: Details)
      ensures this.details == details
    {
      this.details := details;
    }

    method BackfillSupplier()
      modifies this
      ensures details == Backfilled(old(details))
    {
      if details.legalName.Some? {
        if details.country != Some(LEGACY_COUNTRY_NAME) { return; }
        details := details.(country := Some(COUNTRY));
        return;
      }
      details := PLACEHOLDER;
    }
  }

  /** Nothing an operator typed is gone, but for a country written as the name earlier seeds wrote. */
  ghost predicate Kept(before: Details, after: Details) {
    (before.legalName.Some? ==> after.legalName == before.legalName) &&
    (before.country.Some? && before.country.value != LEGACY_COUNTRY_NAME ==> after.country == before.country) &&
    forall column :: column in before.others ==> column in after.others && after.others[column] == before.others[column]
  }

  /**
   * A re-seed keeps what was typed once a legal name is on file. Without one it keeps only what happens to be the
   * placeholder already: a VAT number saved on its own is written over.
   */
  lemma BackfillKeeps(d: Details)
    ensures Kept(d, Backfilled(d)) <==>
      d.legalName.Some? || ((d.country.None? || d.country.value in {COUNTRY, LEGACY_COUNTRY_NAME}) &&
        forall column :: column in d.others ==> column in OTHERS && d.others[column] == OTHERS[column])
  {
  }

  /**
   * One backfill is enough: whatever was there, the next changes nothing, and no legacy country name is left. Where one
   * was, beside a legal name, it is the only thing that changes, to the code the settings accept.
   */
  lemma BackfillSettles(d: Details)
    ensures Backfilled(Backfilled(d)) == Backfilled(d)
    ensures Backfilled(d).legalName.Some? && Backfilled(d).country != Some(LEGACY_COUNTRY_NAME)
    ensures d.legalName.Some? && d.country == Some("United Kingdom") ==> Backfilled(d) == d.(country := Some("GB"))
  {
  }
}
