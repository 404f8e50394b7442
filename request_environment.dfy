/** The request-environment page: the active environment types offered, the four-field form,
    the creation payload sent to the `environments` collection, and the submit transitions. */
module RequestEnvironment {
  import opened Wrappers
  import opened Seqs
  import opened Entities
  import opened Forms

  const NameField := "environmentName"
  const TypeField := "environmentType"
  const OwnerField := "owner"
  const ConfigurationField := "configurationDetails"
  const FieldNames: seq<string> := [NameField, TypeField, OwnerField, ConfigurationField]

  const ProvisioningStatus := "Provisioning"
  const InitialLog := "Environment provisioning initiated..."
  const DashboardRoute := "/dashboard"

  const SubmittedToast := Toast("REQUEST SUBMITTED",
    "Your environment is being provisioned. You will be notified when it is ready.", false)
  const FailedToast := Toast("REQUEST FAILED",
    "Failed to submit environment request. Please try again.", true)

  predicate IsActiveType(t: EnvironmentType) {
    t.isActive == Some(true)
  }

  /** `result.items.filter(type => type.isActive)`. */
  function ActiveTypes(types: seq<EnvironmentType>): seq<EnvironmentType> {
    Filter(types, IsActiveType)
  }

  /** The offered types are exactly the fetched types whose flag is `true` (an undefined flag
      counts as inactive), in fetch order. */
  lemma ActiveTypesSelection(types: seq<EnvironmentType>, t: EnvironmentType)
    ensures t in ActiveTypes(types) <==> t in types && t.isActive == Some(true)
    ensures IsSubsequence(ActiveTypes(types), types)
    ensures multiset(ActiveTypes(types))[t] == if IsActiveType(t) then multiset(types)[t] else 0
  {
    FilterMembers(types, IsActiveType, t);
    FilterIsSubsequence(types, IsActiveType);
    FilterCounts(types, IsActiveType, t);
  }

  /** The value of a type's option in the selector: `type.typeName || ''`. */
  function OptionValue(t: EnvironmentType): (v: string)
    ensures t.typeName.Some? ==> v == t.typeName.value
    ensures t.typeName.None? ==> v == ""
  {
    Or(t.typeName, "")
  }

  /** The form as first rendered: all four fields empty. */
  function InitialForm(): (f: Form)
    ensures f.Keys == {NameField, TypeField, OwnerField, ConfigurationField}
    ensures forall k :: k in f ==> f[k] == ""
  {
    Blank(FieldNames)
  }

  predicate HasRequestFields(form: Form) {
    NameField in form && TypeField in form && OwnerField in form && ConfigurationField in form
  }

  /** `formData.<name>`: `undefined` unless the key is present. */
  function Field(form: Form, name: string): Option<string> {
    if name in form then Some(form[name]) else None
  }

  /** The record passed to `create`; the identifier and the timestamp are generated by the
      caller (`crypto.randomUUID()`, `new Date().toISOString()`). */
  function CreationPayload(form: Form, id: string, now: string): DevelopmentEnvironment {
    DevelopmentEnvironment(
      id := id,
      environmentName := Field(form, NameField),
      status := Some(ProvisioningStatus),
      environmentType := Field(form, TypeField),
      configurationDetails := Field(form, ConfigurationField),
      recentLogs := Some(InitialLog),
      provisionedDate := Some(DateString(now)),
      owner := Field(form, OwnerField),
      accessUrl := None)
  }

  /** The form fields a record carries. */
  function RequestForm(e: DevelopmentEnvironment): Form {
    var m: Form := map[];
    var m := if e.environmentName.Some? then m[NameField := e.environmentName.value] else m;
    var m := if e.environmentType.Some? then m[TypeField := e.environmentType.value] else m;
    var m := if e.owner.Some? then m[OwnerField := e.owner.value] else m;
    if e.configurationDetails.Some? then m[ConfigurationField := e.configurationDetails.value] else m
  }

  /** A record shaped like a fresh request: fixed status and log line, a generated timestamp,
      no access URL, and the four request fields present. */
  predicate IsFreshRequest(e: DevelopmentEnvironment) {
    e.status == Some(ProvisioningStatus) && e.recentLogs == Some(InitialLog) &&
    e.provisionedDate.Some? && e.provisionedDate.value.DateString? && e.accessUrl.None? &&
    e.environmentName.Some? && e.environmentType.Some? && e.owner.Some? && e.configurationDetails.Some?
  }

  /** The payload carries the generated identifier and timestamp and the form's four fields
      unchanged, and a fresh request is determined by its four fields, its identifier and its
      timestamp. */
  lemma PayloadRoundTrip(form: Form, id: string, now: string, e: DevelopmentEnvironment)
    requires HasRequestFields(form)
    ensures IsFreshRequest(CreationPayload(form, id, now))
    ensures CreationPayload(form, id, now).id == id
    ensures CreationPayload(form, id, now).provisionedDate == Some(DateString(now))
    ensures RequestForm(CreationPayload(form, id, now)) ==
            map k | k in form && k in FieldNames :: form[k]
    ensures IsFreshRequest(e) ==> CreationPayload(RequestForm(e), e.id, e.provisionedDate.value.text) == e
  {
    var p := CreationPayload(form, id, now);
    var expected := map k | k in form && k in FieldNames :: form[k];
    assert RequestForm(p).Keys == expected.Keys;
  }

  /** The page's state, with the effects of the page on the outside world recorded as
      sequences: the `create` calls issued, the toasts raised, the navigations performed. */
  class RequestEnvironmentPage {
    var environmentTypes: seq<EnvironmentType>
    var isLoading: bool
    var isSubmitting: bool
    var formData: Form
    var createCalls: seq<DevelopmentEnvironment>
    var toasts: seq<Toast>
    var pendingNavigations: nat
    var navigations: seq<string>

    ghost predicate Valid()
      reads this
    {
      HasRequestFields(formData)
    }

    constructor ()
      ensures Valid()
      ensures environmentTypes == [] && isLoading && !isSubmitting && formData == InitialForm()
      ensures createCalls == [] && toasts == [] && pendingNavigations == 0 && navigations == []
    {
      environmentTypes := [];
      isLoading := true;
      isSubmitting := false;
      formData := InitialForm();
      createCalls := [];
      toasts := [];
      pendingNavigations := 0;
      navigations := [];
    }

    /** `loadEnvironmentTypes`: a resolved fetch offers its active types, a rejected one leaves
        the list as it was; either way loading ends. */
    method LoadEnvironmentTypes(outcome: Fetch<seq<EnvironmentType>>)
      modifies this`environmentTypes, this`isLoading
      ensures environmentTypes == if outcome.Ok? then ActiveTypes(outcome.value) else old(environmentTypes)
      ensures !isLoading
    {
      if outcome.Ok? {
        environmentTypes := ActiveTypes(outcome.value);
      }
      isLoading := false;
    }

    /** `handleChange`: one field takes the new value, every other keeps its own. */
    method HandleChange(field: string, value: string)
      requires Valid()
      modifies this`formData
      ensures Valid()
      ensures formData == WithField(old(formData), field, value)
    {
      formData := WithField(formData, field, value);
    }

    /** `handleSubmit`, with `created` the outcome of the `create` call. Submitting raises the
        flag; success keeps it raised and schedules the navigation to the dashboard, failure
        lowers it again and schedules nothing. The form is left as it is. */
    method HandleSubmit(id: string, now: string, created: bool)
      requires Valid()
      modifies this`isSubmitting, this`createCalls, this`toasts, this`pendingNavigations
      ensures Valid()
      ensures createCalls == old(createCalls) + [CreationPayload(formData, id, now)]
      ensures isSubmitting == created
      ensures toasts == old(toasts) + [if created then SubmittedToast else FailedToast]
      ensures pendingNavigations == old(pendingNavigations) + (if created then 1 else 0)
    {
      isSubmitting := true;
      createCalls := createCalls + [CreationPayload(formData, id, now)];
      if created {
        toasts := toasts + [SubmittedToast];
        pendingNavigations := pendingNavigations + 1;
      } else {
        toasts := toasts + [FailedToast];
        isSubmitting := false;
      }
    }

    /** The delayed step scheduled by a successful submission goes to the dashboard. */
    method NavigationTimerFires()
      requires pendingNavigations > 0
      modifies this`pendingNavigations, this`navigations
      ensures pendingNavigations == old(pendingNavigations) - 1
      ensures navigations == old(navigations) + [DashboardRoute]
    {
      pendingNavigations := pendingNavigations - 1;
      navigations := navigations + [DashboardRoute];
    }

    /** The cancel button goes to the dashboard at once. */
    method Cancel()
      modifies this`navigations
      ensures navigations == old(navigations) + [DashboardRoute]
    {
      navigations := navigations + [DashboardRoute];
    }
  }
}
