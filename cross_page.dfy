/** Facts that relate two pages: each page is written on its own, and these lemmas compare
    their duplicated helpers or follow a record from the page that creates it to the page
    that lists it. */
module CrossPage {
  import opened Wrappers
  import opened Entities
  import opened Forms
  import Text
  import Views
  import Dashboard
  import Docs
  import RequestEnvironment
  import EnvironmentDetail

  /** The detail page colours a status exactly as the dashboard does. */
  lemma StatusToneAgreesWithDashboard(status: Option<string>)
    ensures EnvironmentDetail.StatusTone(status) == Dashboard.StatusTone(status)
  {
  }

  /** The detail page formats dates with a long month name and the documentation page with a
      short one, so each is given its own formatter. The two pages show the same text for a
      date iff the date is truthy and the two formatters agree on it; a falsy date reads
      "N/A" on one and `""` on the other. */
  lemma FormatDateAgreement(date: Option<DateValue>, longDate: DateValue -> string, shortDate: DateValue -> string)
    ensures !DateTruthy(date) ==>
              EnvironmentDetail.FormatDate(date, longDate) == EnvironmentDetail.NoDateText &&
              Docs.FormatDate(date, shortDate) == ""
    ensures EnvironmentDetail.FormatDate(date, longDate) == Docs.FormatDate(date, shortDate) <==>
            DateTruthy(date) && longDate(date.value) == shortDate(date.value)
  {
  }

  /** A newly requested environment is listed by the dashboard's default view, shows the
      "provisioning" colour, and survives exactly the `"all"` and `"Provisioning"` status filters. */
  lemma NewRequestOnDashboard(form: Form, id: string, now: string, statusFilter: string)
    requires RequestEnvironment.HasRequestFields(form)
    ensures Dashboard.StatusTone(RequestEnvironment.CreationPayload(form, id, now).status) == Views.Yellow
    ensures Dashboard.Keeps(RequestEnvironment.CreationPayload(form, id, now), "", Dashboard.AllOption,
                            form[RequestEnvironment.TypeField])
    ensures Dashboard.Keeps(RequestEnvironment.CreationPayload(form, id, now), "", statusFilter, Dashboard.AllOption)
            <==> statusFilter == Dashboard.AllOption || statusFilter == RequestEnvironment.ProvisioningStatus
  {
    Dashboard.StatusToneOfFilterValue(2);
    Text.EmptyQueryMatchesPresent(form[RequestEnvironment.NameField]);
  }
}
