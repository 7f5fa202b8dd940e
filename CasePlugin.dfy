/**
  The active-case uniqueness guard: a plugin that runs before an incident
  (a case) is created and refuses the creation when the same customer
  already has an active case (statecode 0) in the record store.

  The organization service is a value: the incident rows it holds and the
  failure its RetrieveMultiple call raises, if any.  The guard reads it and
  never writes it; the create pipeline that commits a case only after the
  guard accepts is the class CaseTable.
*/
module CasePlugin {
  import opened Wrappers

  /** A record identifier, represented by its canonical text form. */
  type Guid = string

  /** The statecode of an active (open) incident. */
  const ActiveState: int := 0

  /** An incident row: the columns the guard reads. */
  datatype CaseRec = CaseRec(id: Guid, customerId: Guid, statecode: int)

  // ------------------------------------------------------------------
  // Query expressions and how the store evaluates them

  datatype QueryValue = GuidValue(guid: Guid) | IntValue(n: int)

  /** A condition `attribute Equal value` (the only operator the guard uses). */
  datatype Condition = Equal(attribute: string, value: QueryValue)

  datatype Query = Query(entityName: string, columns: seq<string>,
                         conditions: seq<Condition>, topCount: Option<nat>)

  /** The value an incident row holds in a named column, if it has that column. */
  function Attribute(r: CaseRec, name: string): Option<QueryValue>
  {
    if name == "incidentid" then Some(GuidValue(r.id))
    else if name == "customerid" then Some(GuidValue(r.customerId))
    else if name == "statecode" then Some(IntValue(r.statecode))
    else None
  }

  predicate Satisfies(r: CaseRec, c: Condition)
  {
    Attribute(r, c.attribute) == Some(c.value)
  }

  /** A row matches a query when it satisfies every condition of its filter. */
  predicate Matches(r: CaseRec, q: Query)
  {
    forall k :: 0 <= k < |q.conditions| ==> Satisfies(r, q.conditions[k])
  }

  /** The rows of `records` that match `q`, in store order. */
  function Filter(records: seq<CaseRec>, q: Query): (rows: seq<CaseRec>)
    ensures |rows| <= |records|
    ensures forall r :: r in rows <==> r in records && Matches(r, q)
  {
    if records == [] then []
    else if Matches(records[0], q) then [records[0]] + Filter(records[1..], q)
    else Filter(records[1..], q)
  }

  /** The store's answer to a query: the matching rows, cut to TopCount when one is set. */
  function Evaluate(records: seq<CaseRec>, q: Query): seq<CaseRec>
  {
    var rows := Filter(records, q);
    match q.topCount
    case None => rows
    case Some(n) => if |rows| <= n then rows else rows[..n]
  }

  /** The organization service: its incident rows and the failure RetrieveMultiple raises, if any. */
  datatype OrganizationService = OrganizationService(records: seq<CaseRec>, fault: Option<string>)

  function RetrieveMultiple(service: OrganizationService, q: Query): Result<seq<CaseRec>, string>
  {
    match service.fault
    case Some(e) => Failure(e)
    case None => Success(Evaluate(service.records, q))
  }

  /** Whether some active incident of `customerId` is in `records`. */
  predicate HasActiveCase(records: seq<CaseRec>, customerId: Guid)
  {
    exists r :: r in records && r.customerId == customerId && r.statecode == ActiveState
  }

  /** BuildQuery: the incidents of one customer whose statecode is 0, at most one row. */
  function BuildQuery(customerId: Guid): (q: Query)
    ensures q.entityName == "incident" && q.topCount == Some(1)
    ensures forall r :: Matches(r, q) <==> r.customerId == customerId && r.statecode == ActiveState
  {
    var q := Query("incident", ["incidentid"],
                   [Equal("customerid", GuidValue(customerId)), Equal("statecode", IntValue(0))],
                   Some(1));
    forall r ensures Matches(r, q) <==> r.customerId == customerId && r.statecode == ActiveState {
      assert Satisfies(r, q.conditions[0]) <==> r.customerId == customerId;
      assert Satisfies(r, q.conditions[1]) <==> r.statecode == ActiveState;
    }
    q
  }

  /** CheckForExistingCases: runs the query and reports whether it returned any row. */
  function CheckForExistingCases(service: OrganizationService, q: Query): (r: Result<bool, string>)
    ensures r.Failure? <==> service.fault.Some?
    ensures r.Success? ==> (r.value <==> |Evaluate(service.records, q)| > 0)
  {
    match RetrieveMultiple(service, q)
    case Failure(e) => Failure(e)
    case Success(rows) => Success(|rows| > 0)
  }

  /** Cutting the result to TopCount rows, when that is at least one, never changes whether it is empty. */
  lemma TopCountKeepsExistence(records: seq<CaseRec>, q: Query)
    requires q.topCount != Some(0)
    ensures |Evaluate(records, q)| > 0 <==> |Evaluate(records, q.(topCount := None))| > 0
    ensures |Evaluate(records, q)| > 0 <==> exists r :: r in records && Matches(r, q)
  {
    var rows, all := Filter(records, q), Filter(records, q.(topCount := None));
    if |rows| > 0 {
      assert rows[0] in rows && Matches(rows[0], q.(topCount := None));
      assert rows[0] in all;
    }
    if |all| > 0 {
      assert all[0] in all && Matches(all[0], q);
      assert all[0] in rows;
    }
  }

  /** The guard's store check is exactly "the customer has an active case". */
  lemma ExistingCasesIffActive(service: OrganizationService, customerId: Guid)
    requires service.fault.None?
    ensures CheckForExistingCases(service, BuildQuery(customerId)) == Success(HasActiveCase(service.records, customerId))
  {
    var q := BuildQuery(customerId);
    TopCountKeepsExistence(service.records, q);
  }

  // ------------------------------------------------------------------
  // The plugin execution context

  /** A column value of the target entity: an entity reference, or anything else. */
  datatype AttributeValue = EntityReference(logicalName: string, id: Guid) | OtherValue

  /** An input parameter: an entity with its attributes, or anything else (including null). */
  datatype ParameterValue = Entity(logicalName: string, attributes: map<string, AttributeValue>) | OtherParameter

  datatype PluginContext = PluginContext(inputParameters: map<string, ParameterValue>)

  /** The "Target" input parameter, when it is present and is an entity. */
  function TargetEntity(context: PluginContext): Option<map<string, AttributeValue>>
  {
    if "Target" in context.inputParameters && context.inputParameters["Target"].Entity?
    then Some(context.inputParameters["Target"].attributes)
    else None
  }

  /** The target's "customerid", when the target is an entity and that column is an entity reference. */
  function TargetCustomer(context: PluginContext): Option<Guid>
  {
    match TargetEntity(context)
    case None => None
    case Some(attributes) =>
      if "customerid" in attributes && attributes["customerid"].EntityReference?
      then Some(attributes["customerid"].id)
      else None
  }

  // ------------------------------------------------------------------
  // Messages and outcomes

  const NoTargetMessage: string := "Cannot retrieve target entity from context."
  const NoCustomerMessage: string := "Cannot retrieve customer ID from entity."
  const UnexpectedMessage: string := "An unexpected error has occurred."
  const ExistingCasePrefix: string := "Case already exists for customer ID: "

  /** Whether `t` occurs in `s` as a contiguous piece. */
  predicate Mentions(s: string, t: string)
  {
    exists k | 0 <= k <= |s| - |t| :: t <= s[k..]
  }

  /** The rejection message for a customer that already has an active case. */
  function ExistingCaseMessage(customerId: Guid): (m: string)
    ensures Mentions(m, customerId)
    ensures m != NoTargetMessage && m != NoCustomerMessage && m != UnexpectedMessage
  {
    var m := ExistingCasePrefix + customerId + ".";
    assert customerId <= m[|ExistingCasePrefix|..];
    assert m[2] == 's' && NoTargetMessage[2] == 'n' && NoCustomerMessage[2] == 'n' && UnexpectedMessage[0] == 'A';
    m
  }

  /** Two rejections for existing cases carry the same message only for the same customer. */
  lemma ExistingCaseMessageInjective(a: Guid, b: Guid)
    requires ExistingCaseMessage(a) == ExistingCaseMessage(b)
    ensures a == b
  {
    var ma, mb := ExistingCaseMessage(a), ExistingCaseMessage(b);
    var n := |ExistingCasePrefix|;
    assert |a| == |b|;
    assert a == ma[n..n + |a|];
    assert b == mb[n..n + |b|];
  }

  /** What the plugin throws: its own exception type, or any other failure. */
  datatype Exception = InvalidPluginExecution(message: string) | Unexpected(message: string)

  /** The guard's verdict on a creation: go on to commit, or abort with a message. */
  datatype Outcome = Accept | Reject(message: string)

  /**
    Execute: validate the target and its customer, query the store for an active
    case of that customer, and throw to abort the creation when one exists.  An
    InvalidPluginExecutionException propagates with its message; any other
    failure becomes the generic unexpected-error rejection.  `issued` lists the
    queries sent to the store.  The service is a value: the guard writes nothing.
  */
  method Execute(context: PluginContext, service: OrganizationService) returns (outcome: Outcome, issued: seq<Query>)
    ensures TargetEntity(context).None? ==> outcome == Reject(NoTargetMessage) && issued == []
    ensures TargetEntity(context).Some? && TargetCustomer(context).None? ==>
              outcome == Reject(NoCustomerMessage) && issued == []
    ensures TargetCustomer(context).Some? ==>
              var customerId := TargetCustomer(context).value;
              issued == [BuildQuery(customerId)] &&
              outcome == (if service.fault.Some? then Reject(UnexpectedMessage)
                          else if HasActiveCase(service.records, customerId) then Reject(ExistingCaseMessage(customerId))
                          else Accept)
    ensures outcome.Accept? <==>
              TargetCustomer(context).Some? && service.fault.None? &&
              !HasActiveCase(service.records, TargetCustomer(context).value)
  {
    issued := [];
    var thrown: Option<Exception> := None;
    if "Target" in context.inputParameters && context.inputParameters["Target"].Entity? {
      var entity := context.inputParameters["Target"];
      if "customerid" in entity.attributes && entity.attributes["customerid"].EntityReference? {
        var customerId := entity.attributes["customerid"].id;
        var query := BuildQuery(customerId);
        issued := issued + [query];
        var existingCases := CheckForExistingCases(service, query);
        match existingCases {
          case Failure(error) =>
            thrown := Some(Unexpected(error));
          case Success(found) =>
            if service.fault.None? {
              ExistingCasesIffActive(service, customerId);
            }
            if found {
              thrown := Some(InvalidPluginExecution(ExistingCaseMessage(customerId)));
            }
        }
      } else {
        thrown := Some(InvalidPluginExecution(NoCustomerMessage));
      }
    } else {
      thrown := Some(InvalidPluginExecution(NoTargetMessage));
    }
    // The two catch clauses: rethrow the plugin's own exception, wrap anything else.
    match thrown {
      case None => outcome := Accept;
      case Some(InvalidPluginExecution(message)) => outcome := Reject(message);
      case Some(Unexpected(_)) => outcome := Reject(UnexpectedMessage);
    }
  }

  // ------------------------------------------------------------------
  // The sequential create pipeline and the one-open-case invariant

  /** The number of active incidents of `customerId` in `records`. */
  function OpenCount(records: seq<CaseRec>, customerId: Guid): nat
  {
    if records == [] then 0
    else (if records[0].customerId == customerId && records[0].statecode == ActiveState then 1 else 0)
         + OpenCount(records[1..], customerId)
  }

  /** Every customer has at most one active incident. */
  ghost predicate OneOpenCasePerCustomer(records: seq<CaseRec>)
  {
    forall c :: OpenCount(records, c) <= 1
  }

  /** The count of active incidents is positive exactly when the customer has an active case. */
  lemma {:induction false} OpenCountPositive(records: seq<CaseRec>, customerId: Guid)
    ensures OpenCount(records, customerId) > 0 <==> HasActiveCase(records, customerId)
  {
    if records != [] {
      OpenCountPositive(records[1..], customerId);
      assert records == [records[0]] + records[1..];
      if HasActiveCase(records[1..], customerId) {
        var r :| r in records[1..] && r.customerId == customerId && r.statecode == ActiveState;
        assert r in records;
      }
    }
  }

  /** Appending a row adds one to its customer's count when it is active, and nothing otherwise. */
  lemma {:induction false} OpenCountAppend(records: seq<CaseRec>, r: CaseRec, customerId: Guid)
    ensures OpenCount(records + [r], customerId)
            == OpenCount(records, customerId) + (if r.customerId == customerId && r.statecode == ActiveState then 1 else 0)
  {
    if records != [] {
      assert (records + [r])[1..] == records[1..] + [r];
      OpenCountAppend(records[1..], r, customerId);
    } else {
      assert [] + [r] == [r];
    }
  }

  /** Inserting a row that the guard admitted keeps at most one active incident per customer. */
  lemma GuardedInsertKeepsUniqueness(records: seq<CaseRec>, r: CaseRec)
    requires OneOpenCasePerCustomer(records)
    requires r.statecode == ActiveState ==> !HasActiveCase(records, r.customerId)
    ensures OneOpenCasePerCustomer(records + [r])
  {
    forall c ensures OpenCount(records + [r], c) <= 1 {
      OpenCountAppend(records, r, c);
      OpenCountPositive(records, c);
    }
  }

  /**
    The incident table behind the host's create pipeline, run one creation at a
    time: a case is committed only when the guard accepts it.
  */
  class CaseTable {
    var records: seq<CaseRec>

    ghost predicate Valid()
      reads this
    {
      OneOpenCasePerCustomer(records)
    }

    constructor (initial: seq<CaseRec>)
      requires OneOpenCasePerCustomer(initial)
      ensures Valid() && records == initial
    {
      records := initial;
    }

    /**
      One creation attempt: run the guard on the candidate against the current
      rows (with `fault` the failure the store raises, if any), then commit the
      new active incident only if the guard accepted.
    */
    method Create(context: PluginContext, caseId: Guid, fault: Option<string>) returns (outcome: Outcome)
      requires Valid()
      modifies this
      ensures Valid()
      ensures outcome.Accept? <==>
                TargetCustomer(context).Some? && fault.None? &&
                !HasActiveCase(old(records), TargetCustomer(context).value)
      ensures outcome.Accept? ==>
                records == old(records) + [CaseRec(caseId, TargetCustomer(context).value, ActiveState)]
      ensures !outcome.Accept? ==> records == old(records)
    {
      var issued;
      outcome, issued := Execute(context, OrganizationService(records, fault));
      if outcome.Accept? {
        var r := CaseRec(caseId, TargetCustomer(context).value, ActiveState);
        GuardedInsertKeepsUniqueness(records, r);
        records := records + [r];
      }
    }
  }
}
