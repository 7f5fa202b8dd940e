/**
  The case form script: when the customer changes, classify it as an account
  or a contact, set the primary-contact field's required level and visibility,
  and for an account fetch the account's primary contact and write it into the
  field only if the field is still empty when the fetch completes.  A second
  handler shows the quick-view e-mail and mobile-phone controls exactly when
  their values are truthy.

  The form is a FormState value; the class FormContext holds it in fields and
  each of its methods is specified by the pure step of the same handler.
  Issued fetches are recorded in `pending`; their completion is a separate
  call, which may come after any other change to the form.
*/
module CaseForm {
  import opened Wrappers

  /** One entry of a lookup column's value (the form returns an array of these, or null). */
  datatype LookupItem = LookupItem(id: string, entityType: string, name: Option<string>)

  /** What getCustomerDetails extracts from the customer lookup. */
  datatype CustomerDetails = CustomerDetails(customerId: string, customerType: string)

  /** A column's required level: "none", "recommended" or "required". */
  datatype RequiredLevel = NoneLevel | Recommended | Required

  /** JavaScript truthiness of a nullable string: present and not empty. */
  predicate Truthy(v: Option<string>)
  {
    v.Some? && v.value != ""
  }

  /** The part of the case form the script reads and writes. */
  datatype FormState = FormState(
    customer: Option<seq<LookupItem>>,        // "customerid" value
    primaryContact: Option<seq<LookupItem>>,  // "primarycontactid" value
    contactRequiredLevel: RequiredLevel,      // "primarycontactid" required level
    contactVisible: bool,                     // "primarycontactid" control visibility
    quickViewLoaded: bool,                    // the "PrimaryContactQV" quick view is loaded
    email: Option<string>,                    // quick view "emailaddress1" value
    mobilePhone: Option<string>,              // quick view "mobilephone" value
    emailVisible: bool,
    mobilePhoneVisible: bool,
    pending: seq<string>,                     // account ids of fetches issued and not yet completed
    alerts: seq<string>)                      // alert dialogs opened, oldest first

  /** The TypeError raised when an empty lookup array is destructured (its text depends on the engine). */
  const DestructureError: string := "Cannot destructure 'undefined' as it is undefined."
  const DisplayErrorPrefix: string := "Error displaying primary contact: "
  const RetrieveErrorPrefix: string := "Error retrieving account: "

  /**
    getCustomerDetails: the id and entity type of the first customer lookup entry,
    null for a null value, and a TypeError for an empty array (which is truthy).
  */
  function GetCustomerDetails(value: Option<seq<LookupItem>>): (r: Result<Option<CustomerDetails>, string>)
    ensures r == Success(None) <==> value.None?
    ensures r.Failure? <==> value == Some([])
    ensures r.Success? && r.value.Some? ==>
              value.Some? && |value.value| > 0 &&
              r.value.value == CustomerDetails(value.value[0].id, value.value[0].entityType)
  {
    match value
    case None => Success(None)
    case Some(items) =>
      if |items| == 0 then Failure(DestructureError)
      else Success(Some(CustomerDetails(items[0].id, items[0].entityType)))
  }

  /** `t` differs from `s` at most in the contact field's level and visibility and in the issued fetches. */
  predicate OnlyContactControlsChanged(s: FormState, t: FormState)
  {
    t == s.(contactRequiredLevel := t.contactRequiredLevel, contactVisible := t.contactVisible, pending := t.pending)
  }

  /** handleCustomerType: account makes the contact required and shown (and fetches), contact makes it optional and hidden. */
  function ClassifyCustomer(s: FormState, c: CustomerDetails): (t: FormState)
    ensures OnlyContactControlsChanged(s, t) && t.primaryContact == s.primaryContact
    ensures c.customerType == "account" ==>
              t.contactRequiredLevel == Required && t.contactVisible &&
              t.pending == s.pending + (if c.customerId != "" then [c.customerId] else [])
    ensures c.customerType == "contact" ==>
              t.contactRequiredLevel == NoneLevel && !t.contactVisible && t.pending == s.pending
    ensures c.customerType != "account" && c.customerType != "contact" ==> t == s
  {
    if c.customerType == "account" then
      var s' := if c.customerId != "" then s.(pending := s.pending + [c.customerId]) else s;
      s'.(contactRequiredLevel := Required, contactVisible := true)
    else if c.customerType == "contact" then
      s.(contactRequiredLevel := NoneLevel, contactVisible := false)
    else
      s
  }

  /** The entity type of the customer value's first entry, if it has one. */
  function FirstEntryType(value: Option<seq<LookupItem>>): Option<string>
  {
    if value.Some? && |value.value| > 0 then Some(value.value[0].entityType) else None
  }

  /** Whether the customer value's first entry is an account with a truthy id. */
  predicate IsAccountWithId(value: Option<seq<LookupItem>>)
  {
    value.Some? && |value.value| > 0 && value.value[0].entityType == "account" && value.value[0].id != ""
  }

  /** displayPrimaryContact: the customer "onchange" handler. */
  function Display(s: FormState): (t: FormState)
    ensures s.customer.None? ==> t == s
    ensures t.customer == s.customer && t.primaryContact == s.primaryContact
    ensures t.quickViewLoaded == s.quickViewLoaded && t.email == s.email && t.mobilePhone == s.mobilePhone
    ensures t.emailVisible == s.emailVisible && t.mobilePhoneVisible == s.mobilePhoneVisible
    ensures IsAccountWithId(s.customer) ==> t.pending == s.pending + [s.customer.value[0].id]
    ensures !IsAccountWithId(s.customer) ==> t.pending == s.pending
    ensures s.customer == Some([]) ==> t == s.(alerts := s.alerts + [DisplayErrorPrefix + DestructureError])
    ensures s.customer != Some([]) ==> t.alerts == s.alerts
    ensures FirstEntryType(s.customer) == Some("account") ==> t.contactRequiredLevel == Required && t.contactVisible
    ensures FirstEntryType(s.customer) == Some("contact") ==> t.contactRequiredLevel == NoneLevel && !t.contactVisible
    ensures (FirstEntryType(s.customer).Some? && FirstEntryType(s.customer) != Some("account") &&
             FirstEntryType(s.customer) != Some("contact")) ==> t == s
  {
    match GetCustomerDetails(s.customer)
    case Failure(e) => s.(alerts := s.alerts + [DisplayErrorPrefix + e])
    case Success(None) => s
    case Success(Some(c)) => ClassifyCustomer(s, c)
  }

  /** The form's contact value after setPrimaryContact: a one-entry contact lookup. */
  function ContactLookup(contactId: string, name: Option<string>): seq<LookupItem>
  {
    [LookupItem(contactId, "contact", name)]
  }

  /** setPrimaryContact: write the contact only when the field is null (never clobber). */
  function OfferContact(s: FormState, contactId: string, name: Option<string>): (t: FormState)
    ensures t.primaryContact.Some?
    ensures s.primaryContact.Some? ==> t == s
    ensures t == s.(primaryContact := t.primaryContact)
    ensures t.primaryContact != s.primaryContact ==> t.primaryContact == Some(ContactLookup(contactId, name))
  {
    if s.primaryContact.None? then s.(primaryContact := Some(ContactLookup(contactId, name))) else s
  }

  /** The issued fetches without the `k`th one. */
  function Completed(pending: seq<string>, k: nat): (rest: seq<string>)
    requires k < |pending|
    ensures |rest| == |pending| - 1
    ensures forall id :: id in rest ==> id in pending
  {
    pending[..k] + pending[k + 1..]
  }

  /**
    The success callback of retrieveAccountContact: the `k`th issued fetch returned
    the account's primary contact id (possibly null) and its formatted name.
  */
  function RetrieveSuccess(s: FormState, k: nat, contactId: Option<string>, name: Option<string>): (t: FormState)
    requires k < |s.pending|
    ensures t == s.(primaryContact := t.primaryContact, pending := Completed(s.pending, k))
    ensures s.primaryContact.Some? || !Truthy(contactId) ==> t.primaryContact == s.primaryContact
    ensures s.primaryContact.None? && Truthy(contactId) ==>
              t.primaryContact == Some(ContactLookup(contactId.value, name))
  {
    var s' := s.(pending := Completed(s.pending, k));
    if Truthy(contactId) then OfferContact(s', contactId.value, name) else s'
  }

  /** The failure callback of retrieveAccountContact: alert the user, write nothing. */
  function RetrieveFailure(s: FormState, k: nat, message: string): (t: FormState)
    requires k < |s.pending|
    ensures t.primaryContact == s.primaryContact && t.customer == s.customer
    ensures t == s.(pending := Completed(s.pending, k), alerts := t.alerts)
    ensures t.alerts == s.alerts + [RetrieveErrorPrefix + message]
  {
    s.(pending := Completed(s.pending, k), alerts := s.alerts + [RetrieveErrorPrefix + message])
  }

  /** setQuickViewFieldsVisibility: show each quick-view control exactly when its value is truthy. */
  function QuickViewVisibility(s: FormState): (t: FormState)
    ensures !s.quickViewLoaded ==> t == s
    ensures s.quickViewLoaded ==> (t.emailVisible <==> Truthy(s.email)) && (t.mobilePhoneVisible <==> Truthy(s.mobilePhone))
    ensures t == s.(emailVisible := t.emailVisible, mobilePhoneVisible := t.mobilePhoneVisible)
  {
    if s.quickViewLoaded then s.(emailVisible := Truthy(s.email), mobilePhoneVisible := Truthy(s.mobilePhone))
    else s
  }

  /** Re-running the quick-view handler on the same values changes nothing more. */
  lemma QuickViewVisibilityIdempotent(s: FormState)
    ensures QuickViewVisibility(QuickViewVisibility(s)) == QuickViewVisibility(s)
  {
  }

  // ------------------------------------------------------------------
  // Runs of events

  /**
    What can happen to the form: the customer is set and the onchange handler
    runs; a pending fetch completes; the quick view loads with the given values.
  */
  datatype Event =
    | CustomerSet(value: Option<seq<LookupItem>>)
    | FetchSucceeded(k: nat, contactId: Option<string>, name: Option<string>)
    | FetchFailed(k: nat, message: string)
    | QuickViewLoaded(email: Option<string>, mobilePhone: Option<string>)

  /** One event; a completion that names no pending fetch cannot happen and leaves the form alone. */
  function Step(s: FormState, e: Event): FormState
  {
    match e
    case CustomerSet(value) => Display(s.(customer := value))
    case FetchSucceeded(k, contactId, name) => if k < |s.pending| then RetrieveSuccess(s, k, contactId, name) else s
    case FetchFailed(k, message) => if k < |s.pending| then RetrieveFailure(s, k, message) else s
    case QuickViewLoaded(email, mobilePhone) =>
      QuickViewVisibility(s.(quickViewLoaded := true, email := email, mobilePhone := mobilePhone))
  }

  function Run(s: FormState, events: seq<Event>): FormState
    decreases |events|
  {
    if events == [] then s else Run(Step(s, events[0]), events[1..])
  }

  /** Setting the customer to a contact makes the contact field optional and hidden and keeps its value. */
  lemma CustomerSetToContactHidesField(s: FormState, value: Option<seq<LookupItem>>)
    requires FirstEntryType(value) == Some("contact")
    ensures var t := Step(s, CustomerSet(value));
            t.contactRequiredLevel == NoneLevel && !t.contactVisible &&
            t.primaryContact == s.primaryContact && t.pending == s.pending
  {
  }

  /** Non-clobber: once the contact field holds a value, no run of the script's handlers changes it. */
  lemma {:induction false} ContactNeverOverwritten(s: FormState, events: seq<Event>)
    requires s.primaryContact.Some?
    ensures Run(s, events).primaryContact == s.primaryContact
    decreases |events|
  {
    if events != [] {
      ContactNeverOverwritten(Step(s, events[0]), events[1..]);
    }
  }

  /** The only value the script ever puts in the contact field is one a successful fetch returned. */
  lemma {:induction false} ContactComesFromFetch(s: FormState, events: seq<Event>)
    requires Run(s, events).primaryContact != s.primaryContact
    ensures s.primaryContact.None?
    ensures exists i :: 0 <= i < |events| && events[i].FetchSucceeded? && Truthy(events[i].contactId) &&
                        Run(s, events).primaryContact == Some(ContactLookup(events[i].contactId.value, events[i].name))
    decreases |events|
  {
    var s' := Step(s, events[0]);
    if s'.primaryContact == s.primaryContact {
      ContactComesFromFetch(s', events[1..]);
      var i :| 0 <= i < |events[1..]| && events[1..][i].FetchSucceeded? && Truthy(events[1..][i].contactId) &&
               Run(s', events[1..]).primaryContact == Some(ContactLookup(events[1..][i].contactId.value, events[1..][i].name));
      assert events[i + 1] == events[1..][i];
    } else {
      ContactNeverOverwritten(s', events[1..]);
      assert events[0].FetchSucceeded? && Truthy(events[0].contactId);
    }
  }

  /** Every fetch the script issues is for a truthy account id. */
  lemma {:induction false} FetchesOnlyForTruthyIds(s: FormState, events: seq<Event>)
    requires forall id :: id in s.pending ==> id != ""
    ensures forall id :: id in Run(s, events).pending ==> id != ""
    decreases |events|
  {
    if events != [] {
      FetchesOnlyForTruthyIds(Step(s, events[0]), events[1..]);
    }
  }

  /**
    The completion does not check which customer started the fetch: an account's
    contact still lands after the customer was switched to a contact.
  */
  lemma StaleFetchIsApplied(s: FormState, account: string, person: string, contactId: string)
    requires s.pending == [] && s.primaryContact.None?
    requires account != "" && contactId != ""
    ensures var t := Run(s, [CustomerSet(Some([LookupItem(account, "account", None)])),
                             CustomerSet(Some([LookupItem(person, "contact", None)])),
                             FetchSucceeded(0, Some(contactId), None)]);
            t.customer == Some([LookupItem(person, "contact", None)]) &&
            t.primaryContact == Some(ContactLookup(contactId, None)) &&
            t.contactRequiredLevel == NoneLevel && !t.contactVisible
  {
    var e1, e2, e3 := CustomerSet(Some([LookupItem(account, "account", None)])),
                      CustomerSet(Some([LookupItem(person, "contact", None)])),
                      FetchSucceeded(0, Some(contactId), None);
    var a := Step(s, e1);
    assert a.pending == [account];
    var b := Step(a, e2);
    assert b.pending == [account] && b.primaryContact.None?;
    var c := Step(b, e3);
    calc {
      Run(s, [e1, e2, e3]);
      Run(a, [e2, e3]);
      { assert [e1, e2, e3][1..] == [e2, e3]; }
      Run(b, [e3]);
      { assert [e2, e3][1..] == [e3]; }
      Run(c, []);
      c;
    }
  }

  // ------------------------------------------------------------------
  // The form as the script sees it

  class FormContext {
    var customer: Option<seq<LookupItem>>
    var primaryContact: Option<seq<LookupItem>>
    var contactRequiredLevel: RequiredLevel
    var contactVisible: bool
    var quickViewLoaded: bool
    var email: Option<string>
    var mobilePhone: Option<string>
    var emailVisible: bool
    var mobilePhoneVisible: bool
    var pending: seq<string>
    var alerts: seq<string>

    function State(): FormState
      reads this
    {
      FormState(customer, primaryContact, contactRequiredLevel, contactVisible, quickViewLoaded,
                email, mobilePhone, emailVisible, mobilePhoneVisible, pending, alerts)
    }

    constructor (s: FormState)
      ensures State() == s
    {
      customer, primaryContact := s.customer, s.primaryContact;
      contactRequiredLevel, contactVisible := s.contactRequiredLevel, s.contactVisible;
      quickViewLoaded, email, mobilePhone := s.quickViewLoaded, s.email, s.mobilePhone;
      emailVisible, mobilePhoneVisible := s.emailVisible, s.mobilePhoneVisible;
      pending, alerts := s.pending, s.alerts;
    }

    method DisplayPrimaryContact()
      modifies this
      ensures State() == Display(old(State()))
    {
      var details := GetCustomerDetails(customer);
      match details {
        case Failure(error) =>
          alerts := alerts + [DisplayErrorPrefix + error];
        case Success(None) =>
        case Success(Some(c)) =>
          HandleCustomerType(c);
      }
    }

    method HandleCustomerType(c: CustomerDetails)
      modifies this
      ensures State() == ClassifyCustomer(old(State()), c)
    {
      if c.customerType == "account" {
        if c.customerId != "" {
          RetrieveAccountContact(c.customerId);
        }
        contactRequiredLevel := Required;
        contactVisible := true;
      } else if c.customerType == "contact" {
        contactRequiredLevel := NoneLevel;
        contactVisible := false;
      }
    }

    /** Issue the fetch of an account's primary contact; it completes later, through one of the two callbacks. */
    method RetrieveAccountContact(accountId: string)
      modifies this
      ensures State() == old(State()).(pending := old(pending) + [accountId])
    {
      pending := pending + [accountId];
    }

    /** The fetch's success callback for the `k`th pending fetch. */
    method OnRetrieveSuccess(k: nat, contactId: Option<string>, name: Option<string>)
      requires k < |pending|
      modifies this
      ensures State() == RetrieveSuccess(old(State()), k, contactId, name)
    {
      pending := Completed(pending, k);
      if Truthy(contactId) {
        SetPrimaryContact(contactId.value, name);
      }
    }

    /** The fetch's failure callback for the `k`th pending fetch. */
    method OnRetrieveFailure(k: nat, message: string)
      requires k < |pending|
      modifies this
      ensures State() == RetrieveFailure(old(State()), k, message)
    {
      pending := Completed(pending, k);
      alerts := alerts + [RetrieveErrorPrefix + message];
    }

    method SetPrimaryContact(contactId: string, name: Option<string>)
      modifies this
      ensures State() == OfferContact(old(State()), contactId, name)
    {
      var contactReference := ContactLookup(contactId, name);
      if primaryContact.None? {
        primaryContact := Some(contactReference);
      }
    }

    method SetQuickViewFieldsVisibility()
      modifies this
      ensures State() == QuickViewVisibility(old(State()))
    {
      if quickViewLoaded {
        emailVisible := Truthy(email);
        mobilePhoneVisible := Truthy(mobilePhone);
      }
    }
  }
}
