/** The record kinds of the external store that the core pages read and write. Every
    attribute except the identifier is optional, as in the store's schema. */
module Entities {
  import opened Wrappers

  /** A `Date | string` attribute: a date object or the text the store returned. */
  datatype DateValue = DateObject(epochMillis: int) | DateString(text: string)

  /** JavaScript truthiness of an optional date: `undefined` and `""` are falsy,
      a date object is always truthy. */
  predicate DateTruthy(d: Option<DateValue>) {
    d.Some? && !(d.value.DateString? && d.value.text == "")
  }

  /** A record of the `environments` collection. */
  datatype DevelopmentEnvironment = DevelopmentEnvironment(
    id: string,
    environmentName: Option<string>,
    status: Option<string>,
    environmentType: Option<string>,
    configurationDetails: Option<string>,
    recentLogs: Option<string>,
    provisionedDate: Option<DateValue>,
    owner: Option<string>,
    accessUrl: Option<string>)

  /** A record of the `documentation` collection. */
  datatype Documentation = Documentation(
    id: string,
    articleTitle: Option<string>,
    contentBody: Option<string>,
    category: Option<string>,
    lastUpdatedDate: Option<DateValue>,
    slug: Option<string>,
    keywords: Option<string>)

  /** A record of the `environmenttypes` collection. */
  datatype EnvironmentType = EnvironmentType(
    id: string,
    typeName: Option<string>,
    description: Option<string>,
    defaultConfigSpecs: Option<string>,
    defaultVersion: Option<string>,
    estimatedProvisioningTimeMinutes: Option<int>,
    isActive: Option<bool>)

  /** A transient notification raised through the toast facility. */
  datatype Toast = Toast(title: string, description: string, destructive: bool)
}
