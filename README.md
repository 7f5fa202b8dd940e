# Case workflow guard and case-form script, in Dafny

This project models the two decision procedures of a customer-service case
workflow on a Dynamics 365 style platform, and proves what they promise.

- **Active-case uniqueness guard** (`CasePlugin.dfy`, module `CasePlugin`).
  The pre-operation plugin runs before an incident (a case) is created. It
  checks that the execution context carries an entity `Target` and that the
  target has a `customerid` entity reference. It then asks the organization
  service for one active incident (`statecode` 0) of that customer and
  aborts the creation when it finds one. The plugin's own exceptions
  propagate unchanged. Any other failure becomes "An unexpected error has
  occurred.". The organization service is a value: its incident rows and the
  failure its `RetrieveMultiple` call raises, if any. Query expressions
  (`BuildQuery`) are given a meaning by a small evaluator: filter on every
  condition, then cut to `TopCount`. The class `CaseTable` is the host's
  create pipeline run one creation at a time: it commits a new active
  incident only when the guard accepts. Its invariant is "at most one active
  incident per customer".
- **Dependent-field resolution on the case form** (`CaseForm.dfy`, module
  `CaseForm`). The customer `onchange` handler classifies the customer as an
  account or a contact. That sets the primary-contact field's required level
  and visibility, and for an account it issues a fetch of the account's
  primary contact. The fetch's success callback writes the contact only if
  the field is still null at completion. Its failure callback only alerts.
  The quick-view handler shows the e-mail and mobile-phone controls exactly
  when their values are truthy. The form is the value `FormState`. The class
  `FormContext` holds it in fields, and each of its methods is specified by
  the handler's pure function: `State() == F(old(State()))`, with F one of
  `Display`, `ClassifyCustomer`, `OfferContact`, `RetrieveSuccess`,
  `RetrieveFailure` and `QuickViewVisibility`.
  `Run` applies a sequence of events (customer set, fetch completed or
  failed, quick view loaded), and the lemmas about runs state the non-clobber
  rule over any interleaving.

`Wrappers.dfy` holds the `Option` and `Result` datatypes both parts use.

Two behaviours of the script are worth stating:

- The success callback never checks that the customer is still the one that
  started the fetch. It tests only that the contact id is truthy and that the
  field is null (Scenario1/CaseFormEnhancements.js:64, 87).
  `StaleFetchIsApplied` shows an account's contact landing after the customer
  was switched to a contact.
- An empty customer lookup array is truthy, so destructuring its missing
  first entry throws a TypeError, which `displayPrimaryContact` catches and
  alerts (Scenario1/CaseFormEnhancements.js:14-16, 27-29). The model keeps
  this path.

## Model

| member | source | states |
|---|---|---|
| `CasePlugin.BuildQuery` | Scenario2/CasePlugin/CasePlugin/CasePlugin.cs:97-113 | the query targets incidents, is capped at one row, and a row matches it exactly when its customer is the given one and its statecode is 0 |
| `CasePlugin.CheckForExistingCases` | Scenario2/CasePlugin/CasePlugin/CasePlugin.cs:121-125 | fails exactly when the store call fails; otherwise true exactly when the query returns at least one row |
| `CasePlugin.TopCountKeepsExistence` | Scenario2/CasePlugin/CasePlugin/CasePlugin.cs:110-124 | with a TopCount of at least one, the capped result is non-empty iff the uncapped one is, iff some stored row matches |
| `CasePlugin.ExistingCasesIffActive` | Scenario2/CasePlugin/CasePlugin/CasePlugin.cs:48-52 | when the store answers, the existence check on the built query is exactly "the customer has an active case"; closed cases and other customers' cases never count |
| `CasePlugin.ExistingCaseMessage` | Scenario2/CasePlugin/CasePlugin/CasePlugin.cs:56-57 | the rejection message contains the customer id and differs from the three other rejection messages |
| `CasePlugin.ExistingCaseMessageInjective` | Scenario2/CasePlugin/CasePlugin/CasePlugin.cs:57 | two existing-case messages are equal only for the same customer id |
| `CasePlugin.Execute` | Scenario2/CasePlugin/CasePlugin/CasePlugin.cs:22-90 | no entity Target: rejects with the target message and issues no query; no customerid reference: rejects with the customer message and issues no query; otherwise issues exactly BuildQuery(customer) and rejects with the unexpected-error message on a store failure, with the existing-case message when the customer has an active case, and accepts otherwise; accepts iff all checks pass; the service is only read |
| `CasePlugin.OpenCountPositive` | Scenario2/CasePlugin/CasePlugin/CasePlugin.cs:13 | a customer's count of active incidents is positive iff the customer has an active case |
| `CasePlugin.GuardedInsertKeepsUniqueness` | Scenario2/CasePlugin/CasePlugin/CasePlugin.cs:52-58 | appending a row the guard admits keeps at most one active incident per customer |
| `CasePlugin.CaseTable.Create` | Scenario2/CasePlugin/CasePlugin/CasePlugin.cs:52-63 | a creation is committed iff the guard accepts; an accepted one appends exactly one active incident, a rejected one leaves the table unchanged; at most one active incident per customer holds before and after |
| `CaseForm.GetCustomerDetails` | Scenario1/CaseFormEnhancements.js:25-34 | null gives null, an empty lookup array gives the TypeError, otherwise the first entry's id and entity type |
| `CaseForm.ClassifyCustomer` | Scenario1/CaseFormEnhancements.js:41-53 | account: required and visible, one fetch issued iff the id is truthy; contact: level none and hidden, no fetch; any other type: nothing changes; never touches the contact value or the quick view |
| `CaseForm.Display` | Scenario1/CaseFormEnhancements.js:5-18 | a null customer changes nothing; an account makes the contact field required and visible, a contact makes it level none and hidden, any other type changes nothing; a fetch is issued exactly for an account with a truthy id; the contact value and quick view are never touched; an empty lookup array only alerts, and no other path alerts |
| `CaseForm.CustomerSetToContactHidesField` | Scenario1/CaseFormEnhancements.js:48-51 | setting the customer to a contact gives level none and a hidden field, keeps the stored contact value and issues no fetch |
| `CaseForm.OfferContact` | Scenario1/CaseFormEnhancements.js:81-90 | afterwards the field is non-null; a non-null field is left as it was; if the field changes, it becomes the one-entry contact lookup built from the id and name; nothing else changes |
| `CaseForm.RetrieveSuccess` | Scenario1/CaseFormEnhancements.js:62-67 | completes the fetch; the contact is written iff the field is null at completion and the fetched id is truthy, and then equals {id, "contact", formatted name}; nothing else changes |
| `CaseForm.RetrieveFailure` | Scenario1/CaseFormEnhancements.js:68-71 | completes the fetch and appends one alert; no field is written |
| `CaseForm.QuickViewVisibility` | Scenario1/CaseFormEnhancements.js:96-111 | when the quick view is loaded each control is visible iff its value is truthy; when it is not loaded nothing changes; only the two visibilities change |
| `CaseForm.QuickViewVisibilityIdempotent` | Scenario1/CaseFormEnhancements.js:100-105 | running the quick-view handler twice gives the same form as running it once |
| `CaseForm.ContactNeverOverwritten` | Scenario1/CaseFormEnhancements.js:87-88 | once the contact field is non-null, no run of events changes it |
| `CaseForm.ContactComesFromFetch` | Scenario1/CaseFormEnhancements.js:61-89 | if a run changes the contact field, it was null before and now holds the lookup built from some successful fetch with a truthy contact id |
| `CaseForm.FetchesOnlyForTruthyIds` | Scenario1/CaseFormEnhancements.js:43-45 | every fetch issued in any run is for a non-empty account id |
| `CaseForm.StaleFetchIsApplied` | Scenario1/CaseFormEnhancements.js:81-90 | a fetch issued for an account still writes its contact after the customer was switched to a contact, whose level and visibility stay none and hidden |
| `CaseForm.FormContext.DisplayPrimaryContact` | Scenario1/CaseFormEnhancements.js:5-18 | the new form state is `Display` of the old one |
| `CaseForm.FormContext.HandleCustomerType` | Scenario1/CaseFormEnhancements.js:41-53 | the new form state is `ClassifyCustomer` of the old one |
| `CaseForm.FormContext.RetrieveAccountContact` | Scenario1/CaseFormEnhancements.js:60-73 | issuing a fetch records it as pending and changes nothing else |
| `CaseForm.FormContext.OnRetrieveSuccess` | Scenario1/CaseFormEnhancements.js:62-67 | the new form state is `RetrieveSuccess` of the old one |
| `CaseForm.FormContext.OnRetrieveFailure` | Scenario1/CaseFormEnhancements.js:68-71 | the new form state is `RetrieveFailure` of the old one |
| `CaseForm.FormContext.SetPrimaryContact` | Scenario1/CaseFormEnhancements.js:81-90 | the new form state is `OfferContact` of the old one |
| `CaseForm.FormContext.SetQuickViewFieldsVisibility` | Scenario1/CaseFormEnhancements.js:96-111 | the new form state is `QuickViewVisibility` of the old one |

## Left out

- Service lookup and organization-service creation (`GetService`, `CreateOrganizationService`) are platform plumbing. The guard receives the organization service as a value.
- The `RetrieveMultiple` transport is not modelled. A store call either returns the evaluated query result or raises a failure given as `OrganizationService.fault`. The `ColumnSet` projection to `incidentid` is not modelled: the guard only counts rows.
- Tracing (`stageNumber` and the trace texts), `console.log` and the alert dialogs are advisory output. Alerts are kept only as a list of messages in the form state.
- Guids are represented by their text form. Case-insensitive Guid comparison by the platform is not modelled.
- Failures other than a store failure (a failing tracing service, an attribute access that throws) are not modelled. The store failure is the one source of the unexpected-error path.
- Concurrent creations: the check-then-commit race is not addressed by the plugin. Only the sequential pipeline `CaseTable.Create` is modelled.
- Plugin registration (Create message, pre-operation stage) and form event wiring are host configuration.
- The `Xrm.WebApi.retrieveRecord` request and its promise are not modelled. A fetch is a pending entry, and its completion is a separate call with an abstract result (contact id and formatted name, or an error message).
- Quick-view form lookup and control retrieval are UI internals. The quick view is a loaded flag plus two optional strings, and a missing form control (which would throw) is not modelled.
- A missing `primarycontactid` attribute or control is not modelled. In the script, `handleCustomerType` would then throw after any fetch was already issued, and `displayPrimaryContact` would catch the error and alert; the model assumes the form has the field.
- The message of the TypeError raised for an empty customer lookup depends on the JavaScript engine. It is a fixed constant here.
- `Run` ignores a fetch completion that names no pending fetch, since such a completion cannot happen.
