/** The environment detail page: the route's id, the fetched record, the loading flag, the
    render choice between spinner, not-found view and details, and the text fallbacks. */
module EnvironmentDetail {
  import opened Wrappers
  import opened Text
  import opened Entities
  import Views

  const NoConfigurationText := "No configuration details available"
  const NoLogsText := "No recent logs available"
  const NoDateText := "N/A"

  /** `getStatusColor` of this page, written out again as the page does. */
  function StatusTone(status: Option<string>): (t: Views.Tone)
    ensures t == Views.Green <==> status.Some? && Lower(status.value) == "active"
    ensures t == Views.Yellow <==> status.Some? && Lower(status.value) == "provisioning"
    ensures t == Views.Destructive <==> status.Some? && Lower(status.value) == "error"
    ensures status.None? ==> t == Views.Subtle
  {
    if status.None? then Views.Subtle
    else
      var s := Lower(status.value);
      if s == "active" then Views.Green
      else if s == "stopped" then Views.Subtle
      else if s == "provisioning" then Views.Yellow
      else if s == "error" then Views.Destructive
      else Views.Subtle
  }

  /** `formatDate` of this page: a falsy date reads "N/A", any other is passed to the
      locale formatter. */
  function FormatDate(date: Option<DateValue>, localize: DateValue -> string): (r: string)
    ensures !DateTruthy(date) ==> r == NoDateText
    ensures DateTruthy(date) ==> r == localize(date.value)
  {
    if !DateTruthy(date) then NoDateText else localize(date.value)
  }

  /** The configuration panel's text: the details, or a fallback when they are empty or undefined. */
  function ConfigurationText(e: DevelopmentEnvironment): (r: string)
    ensures r != ""
    ensures Truthy(e.configurationDetails) ==> r == e.configurationDetails.value
    ensures !Truthy(e.configurationDetails) ==> r == NoConfigurationText
  {
    Or(e.configurationDetails, NoConfigurationText)
  }

  /** The logs panel's text: the logs, or a fallback when they are empty or undefined. */
  function LogsText(e: DevelopmentEnvironment): (r: string)
    ensures r != ""
    ensures Truthy(e.recentLogs) ==> r == e.recentLogs.value
    ensures !Truthy(e.recentLogs) ==> r == NoLogsText
  {
    Or(e.recentLogs, NoLogsText)
  }

  /** What the content region shows. */
  datatype View = Spinner | NotFound | Details(environment: DevelopmentEnvironment)

  /** The render choice, in priority order: loading, then a missing record, then the details. */
  function Render(isLoading: bool, environment: Option<DevelopmentEnvironment>): (v: View)
    ensures v.Spinner? <==> isLoading
    ensures v.NotFound? <==> !isLoading && environment.None?
    ensures v.Details? <==> !isLoading && environment.Some?
    ensures v.Details? ==> v.environment == environment.value
  {
    if isLoading then Spinner
    else if environment.None? then NotFound
    else Details(environment.value)
  }

  /** The page's state; `requestedIds` records the ids passed to `getById`. */
  class EnvironmentDetailPage {
    var id: Option<string>
    var environment: Option<DevelopmentEnvironment>
    var isLoading: bool
    var requestedIds: seq<string>

    constructor (id: Option<string>)
      ensures this.id == id && environment.None? && isLoading && requestedIds == []
    {
      this.id := id;
      environment := None;
      isLoading := true;
      requestedIds := [];
    }

    /** `loadEnvironment`, with `outcome` the result of `getById` (a resolved `null` is
        `Ok(None)`). A falsy id returns before the `try`, so nothing is fetched and the page
        keeps loading; otherwise loading ends whether the fetch resolves or rejects, and a
        rejected fetch keeps the previous record. */
    method LoadEnvironment(outcome: Fetch<Option<DevelopmentEnvironment>>)
      modifies this`environment, this`isLoading, this`requestedIds
      ensures !Truthy(id) ==>
                environment == old(environment) && isLoading == old(isLoading) && requestedIds == old(requestedIds)
      ensures Truthy(id) ==>
                requestedIds == old(requestedIds) + [id.value] && !isLoading &&
                environment == if outcome.Ok? then outcome.value else old(environment)
    {
      if !Truthy(id) {
        return;
      }
      requestedIds := requestedIds + [id.value];
      if outcome.Ok? {
        environment := outcome.value;
      }
      isLoading := false;
    }

    /** The route parameter changes; the effect then loads again, and until then the page
        keeps showing what it showed. */
    method ChangeId(newId: Option<string>)
      modifies this`id
      ensures id == newId
    {
      id := newId;
    }

    function Content(): View
      reads this
    {
      Render(isLoading, environment)
    }
  }

  /** Mounting the page without an id and running its load leaves the spinner up for good. */
  method MountWithoutId(outcome: Fetch<Option<DevelopmentEnvironment>>) returns (page: EnvironmentDetailPage)
    ensures fresh(page)
    ensures page.Content() == Spinner && page.requestedIds == []
  {
    page := new EnvironmentDetailPage(None);
    page.LoadEnvironment(outcome);
  }

  /** Mounting the page with an id whose fetch is rejected shows the not-found view. */
  method MountWithFailedFetch(id: string) returns (page: EnvironmentDetailPage)
    requires id != ""
    ensures fresh(page)
    ensures page.Content() == NotFound && page.requestedIds == [id]
  {
    page := new EnvironmentDetailPage(Some(id));
    page.LoadEnvironment(Fail);
  }
}
