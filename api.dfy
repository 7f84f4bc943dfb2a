/**
 * The request handlers of the CRM API over an abstract document store.
 *
 * The store is a `Backend` object: the Customer, Order and CommunicationLog
 * collections in insertion order, the next document id, and a trace of every
 * effect the handlers have on the outside world (store writes, publishes on
 * the event bus, calls to the message sender, delivery-status updates), in the
 * order they happen. Faults of the store or the bus are an input (`Fault`);
 * the sender's answer to each attempt is an input (`respond`); how a Mongo
 * query matches a customer is an input (`sat`, the meaning of one condition).
 */
module Api {
  import opened QueryCompiler

  /** A document id. Ids of all three collections come from one supply, so they never collide. */
  type Id = nat

  datatype Customer = Customer(id: Id, name: string, email: string, totalspends: int, lastvisit: string, totalvisits: int)

  datatype Order = Order(id: Id, product: string, customerId: Id)

  datatype CommunicationLog =
    CommunicationLog(id: Id, audienceFilters: seq<Filter>, audienceSize: nat, audienceMembers: seq<Id>, status: string)

  const SENT := "SENT"
  const FAILED := "FAILED"
  const CUSTOMER_CHANNEL := "customer_channel"
  const ORDER_CHANNEL := "order_channel"

  /** The body of `POST /customer`; an absent field is the falsy value of its type ("" or 0). */
  datatype CustomerInput = CustomerInput(name: string, email: string, lastvisit: string, totalspends: int, totalvisits: int)

  /**
   * A raw id from a request: missing (undefined or null), a string that is not
   * an ObjectId (the empty string among them), or a well-formed id.
   */
  datatype IdInput = Absent | Malformed(text: string) | Wellformed(id: Id)

  /** The `!id` test: a missing id or the empty string. */
  predicate Falsy(x: IdInput) {
    x.Absent? || x == Malformed("")
  }

  datatype Payload = CustomerPayload(customer: Customer) | OrderPayload(order: Order)

  datatype Effect =
    | SavedCustomer(customer: Customer)
    | SavedOrder(order: Order)
    | SavedLog(log: CommunicationLog)
    | Published(channel: string, payload: Payload)
    | Posted(message: string, customerId: Id)
    | StatusUpdate(target: Id, status: string)
    | NullStatusUpdate(status: string)  // an update whose id is null: it matches no log

  /** What the external sender did with one attempt: an HTTP status, or a transport error. */
  datatype SendOutcome = Response(code: int) | TransportFault

  /** Which store or bus call, if any, throws during a request. */
  datatype Fault = Healthy | ReadFails | WriteFails | PublishFails

  datatype Reason = InvalidData | SameTotalVisits | InvalidCustomerId

  /** HTTP outcomes: the first four are 200, then 400, 404 and 500. */
  datatype Reply =
    | Ok
    | Size(size: nat)
    | OrderList(orders: seq<Order>)
    | CampaignList(campaigns: seq<CommunicationLog>)
    | BadRequest(reason: Reason)
    | NotFound
    | InternalError

  /** The required-field guard of `POST /customer`: a zero count or amount is falsy too. */
  predicate MissingField(input: CustomerInput) {
    input.name == "" || input.email == "" || input.totalspends == 0 || input.totalvisits == 0 || input.lastvisit == ""
  }

  /** `Customer.findOne({ email })`: the position of the first customer with that email. */
  function IndexOfEmail(cs: seq<Customer>, email: string): (r: Option<nat>)
    ensures r.Some? ==> r.value < |cs| && cs[r.value].email == email
    ensures r.Some? ==> forall i :: 0 <= i < r.value ==> cs[i].email != email
    ensures r.None? ==> forall i :: 0 <= i < |cs| ==> cs[i].email != email
  {
    if |cs| == 0 then None
    else if cs[0].email == email then Some(0)
    else
      match IndexOfEmail(cs[1..], email)
      case None => None
      case Some(k) => Some(k + 1)
  }

  /** Whether a customer satisfies a compiled query, given the meaning of single conditions. */
  predicate Matches(c: Customer, q: Query, sat: (Customer, Query) -> bool) {
    Eval(q, (leaf: Query) => sat(c, leaf))
  }

  /** `Customer.find(query)`: the matching customers in collection order. */
  function Matching(cs: seq<Customer>, q: Query, sat: (Customer, Query) -> bool): (r: seq<Customer>)
    ensures |r| <= |cs|
    ensures forall c :: c in r <==> c in cs && Matches(c, q, sat)
  {
    if |cs| == 0 then []
    else (if Matches(cs[0], q, sat) then [cs[0]] else []) + Matching(cs[1..], q, sat)
  }

  /** `Order.find({ customerId })`. */
  function OrdersOf(os: seq<Order>, customerId: Id): (r: seq<Order>)
    ensures |r| <= |os|
    ensures forall o :: o in r <==> o in os && o.customerId == customerId
  {
    if |os| == 0 then []
    else (if os[0].customerId == customerId then [os[0]] else []) + OrdersOf(os[1..], customerId)
  }

  function Ids(cs: seq<Customer>): (r: seq<Id>)
    ensures |r| == |cs|
    ensures forall i :: 0 <= i < |cs| ==> r[i] == cs[i].id
  {
    if |cs| == 0 then [] else [cs[0].id] + Ids(cs[1..])
  }

  function Greeting(name: string): string {
    "Hi " + name + ", here is 10% off on your next order"
  }

  /** A 2xx answer; anything else, or a transport error, is a failed delivery. */
  predicate Delivered(o: SendOutcome) {
    o.Response? && 200 <= o.code < 300
  }

  function StatusFor(o: SendOutcome): string {
    if Delivered(o) then SENT else FAILED
  }

  /** `CommunicationLog.findByIdAndUpdate(id, { status })`: only the status of the log with that id changes. */
  function SetStatus(logs: seq<CommunicationLog>, id: Id, status: string): (r: seq<CommunicationLog>)
    ensures |r| == |logs|
    ensures forall i :: 0 <= i < |logs| ==> r[i].(status := logs[i].status) == logs[i]
    ensures forall i :: 0 <= i < |logs| ==> r[i].status == if logs[i].id == id then status else logs[i].status
  {
    if |logs| == 0 then []
    else [if logs[0].id == id then logs[0].(status := status) else logs[0]] + SetStatus(logs[1..], id, status)
  }

  /** The effects of the send loop over `members`: a post to the sender, then a status update, per member. */
  function SendTrace(members: seq<Customer>, respond: Customer -> SendOutcome): seq<Effect>
    decreases |members|
  {
    if |members| == 0 then []
    else
      var m := members[|members| - 1];
      SendTrace(members[..|members| - 1], respond) + [Posted(Greeting(m.name), m.id), StatusUpdate(m.id, StatusFor(respond(m)))]
  }

  /** The logs after the send loop's status updates, in loop order. */
  function ApplySends(logs: seq<CommunicationLog>, members: seq<Customer>, respond: Customer -> SendOutcome): seq<CommunicationLog>
    decreases |members|
  {
    if |members| == 0 then logs
    else
      var m := members[|members| - 1];
      SetStatus(ApplySends(logs, members[..|members| - 1], respond), m.id, StatusFor(respond(m)))
  }

  // ---------------------------------------------------------------------------
  // Lemmas about the send loop and status updates
  // ---------------------------------------------------------------------------

  /**
   * Every member is attempted exactly once and in order, whatever earlier
   * attempts returned, and each attempt is followed by exactly one status
   * update keyed by the member's own id: SENT iff the sender answered 2xx.
   */
  lemma {:induction false} SendTraceShape(members: seq<Customer>, respond: Customer -> SendOutcome)
    ensures |SendTrace(members, respond)| == 2 * |members|
    ensures forall i :: 0 <= i < |members| ==>
      SendTrace(members, respond)[2 * i] == Posted(Greeting(members[i].name), members[i].id) &&
      SendTrace(members, respond)[2 * i + 1] == StatusUpdate(members[i].id, if Delivered(respond(members[i])) then SENT else FAILED)
    decreases |members|
  {
    if |members| > 0 {
      var n := |members|;
      SendTraceShape(members[..n - 1], respond);
      forall i | 0 <= i < n - 1 ensures members[..n - 1][i] == members[i] { }
    }
  }

  /** Repeating a status update changes nothing. */
  lemma SetStatusIdempotent(logs: seq<CommunicationLog>, id: Id, status: string)
    ensures SetStatus(SetStatus(logs, id, status), id, status) == SetStatus(logs, id, status)
  {
  }

  /** An update keyed by an id that no log has leaves every log as it was. */
  lemma SetStatusMissingId(logs: seq<CommunicationLog>, id: Id, status: string)
    requires forall i :: 0 <= i < |logs| ==> logs[i].id != id
    ensures SetStatus(logs, id, status) == logs
  {
  }

  /**
   * As written, the send loop keys its status updates by customer ids; when no
   * log shares an id with a member, the loop leaves every log as it was.
   */
  lemma {:induction false} SendsMissLogs(logs: seq<CommunicationLog>, members: seq<Customer>, respond: Customer -> SendOutcome)
    requires forall i, j :: 0 <= i < |logs| && 0 <= j < |members| ==> logs[i].id != members[j].id
    ensures ApplySends(logs, members, respond) == logs
    decreases |members|
  {
    if |members| > 0 {
      var n := |members|;
      SendsMissLogs(logs, members[..n - 1], respond);
      SetStatusMissingId(logs, members[n - 1].id, StatusFor(respond(members[n - 1])));
    }
  }

  /** Members drawn from the customers share no id with any log that shares none with a customer. */
  lemma DisjointIds(customers: seq<Customer>, logs: seq<CommunicationLog>, members: seq<Customer>)
    requires forall i, j :: 0 <= i < |customers| && 0 <= j < |logs| ==> customers[i].id != logs[j].id
    requires forall c :: c in members ==> c in customers
    ensures forall i, j :: 0 <= i < |logs| && 0 <= j < |members| ==> logs[i].id != members[j].id
  {
    forall i, j | 0 <= i < |logs| && 0 <= j < |members| ensures logs[i].id != members[j].id {
      assert members[j] in members;
      var k :| 0 <= k < |customers| && customers[k] == members[j];
    }
  }

  // ---------------------------------------------------------------------------
  // The store and the handlers
  // ---------------------------------------------------------------------------

  class Backend {
    var customers: seq<Customer>
    var orders: seq<Order>
    var logs: seq<CommunicationLog>
    var nextId: nat
    var trace: seq<Effect>

    /** Emails are unique, every id comes from the supply below `nextId`, and no customer shares an id with a log. */
    ghost predicate Valid()
      reads this
    {
      (forall i, j :: 0 <= i < j < |customers| ==> customers[i].email != customers[j].email) &&
      (forall i :: 0 <= i < |customers| ==> customers[i].id < nextId) &&
      (forall i :: 0 <= i < |orders| ==> orders[i].id < nextId) &&
      (forall i :: 0 <= i < |logs| ==> logs[i].id < nextId) &&
      (forall i, j :: 0 <= i < |customers| && 0 <= j < |logs| ==> customers[i].id != logs[j].id)
    }

    constructor ()
      ensures Valid()
      ensures customers == [] && orders == [] && logs == [] && trace == [] && nextId == 0
    {
      customers, orders, logs, trace, nextId := [], [], [], [], 0;
    }

    /**
     * `POST /customer`. A missing or falsy field is refused before the store is
     * touched; a known email with the same visit count is refused; a known email
     * with a new visit count overwrites that count only and publishes the record;
     * a new email creates one record and publishes it. The new record's save
     * casts `lastvisit` to a date (`isDate`); a string that is not one makes the
     * save fail (500). An existing record's save does not re-cast it.
     */
    method SubmitCustomer(input: CustomerInput, isDate: string -> bool, fault: Fault) returns (reply: Reply)
      requires Valid()
      modifies this
      ensures Valid()
      ensures orders == old(orders) && logs == old(logs)
      ensures
        var k := IndexOfEmail(old(customers), input.email);
        if MissingField(input) then reply == BadRequest(InvalidData) && unchanged(this)
        else if fault == ReadFails then reply == InternalError && unchanged(this)
        else if k.Some? && old(customers)[k.value].totalvisits == input.totalvisits then
          reply == BadRequest(SameTotalVisits) && unchanged(this)
        else if fault == WriteFails || (k.None? && !isDate(input.lastvisit)) then reply == InternalError && unchanged(this)
        else
          var saved :=
            if k.Some? then old(customers)[k.value].(totalvisits := input.totalvisits)
            else Customer(old(nextId), input.name, input.email, input.totalspends, input.lastvisit, input.totalvisits);
          customers == (if k.Some? then old(customers)[k.value := saved] else old(customers) + [saved]) &&
          nextId == (if k.Some? then old(nextId) else old(nextId) + 1) &&
          trace == old(trace) + [SavedCustomer(saved)] +
                   (if fault == PublishFails then [] else [Published(CUSTOMER_CHANNEL, CustomerPayload(saved))]) &&
          reply == (if fault == PublishFails then InternalError else Ok)
    {
      if MissingField(input) {
        return BadRequest(InvalidData);
      }
      if fault == ReadFails {
        return InternalError;
      }
      var k := IndexOfEmail(customers, input.email);
      if k.Some? && customers[k.value].totalvisits == input.totalvisits {
        return BadRequest(SameTotalVisits);
      }
      if fault == WriteFails || (k.None? && !isDate(input.lastvisit)) {
        return InternalError;
      }
      var saved: Customer;
      if k.Some? {
        saved := customers[k.value].(totalvisits := input.totalvisits);
        customers := customers[k.value := saved];
      } else {
        saved := Customer(nextId, input.name, input.email, input.totalspends, input.lastvisit, input.totalvisits);
        customers := customers + [saved];
        nextId := nextId + 1;
      }
      trace := trace + [SavedCustomer(saved)];
      if fault == PublishFails {
        return InternalError;
      }
      trace := trace + [Published(CUSTOMER_CHANNEL, CustomerPayload(saved))];
      reply := Ok;
    }

    /**
     * `POST /order`. Only the form of `customerId` is checked: an order naming
     * no existing customer is stored and published all the same.
     */
    method SubmitOrder(product: string, customerId: IdInput, fault: Fault) returns (reply: Reply)
      requires Valid()
      modifies this
      ensures Valid()
      ensures customers == old(customers) && logs == old(logs)
      ensures
        if product == "" || Falsy(customerId) then reply == BadRequest(InvalidData) && unchanged(this)
        else if customerId.Malformed? then reply == BadRequest(InvalidCustomerId) && unchanged(this)
        else if fault == WriteFails then reply == InternalError && unchanged(this)
        else
          var order := Order(old(nextId), product, customerId.id);
          orders == old(orders) + [order] && nextId == old(nextId) + 1 &&
          trace == old(trace) + [SavedOrder(order)] +
                   (if fault == PublishFails then [] else [Published(ORDER_CHANNEL, OrderPayload(order))]) &&
          reply == (if fault == PublishFails then InternalError else Ok)
    {
      if product == "" || Falsy(customerId) {
        return BadRequest(InvalidData);
      }
      if customerId.Malformed? {
        return BadRequest(InvalidCustomerId);
      }
      if fault == WriteFails {
        return InternalError;
      }
      var order := Order(nextId, product, customerId.id);
      orders := orders + [order];
      nextId := nextId + 1;
      trace := trace + [SavedOrder(order)];
      if fault == PublishFails {
        return InternalError;
      }
      trace := trace + [Published(ORDER_CHANNEL, OrderPayload(order))];
      reply := Ok;
    }

    /** `GET /customer/:id/orders`: an empty result is still 200, so the 404 branch is never taken. */
    method ListOrders(customerId: IdInput, fault: Fault) returns (reply: Reply)
      ensures !customerId.Wellformed? ==> reply == BadRequest(InvalidCustomerId)
      ensures customerId.Wellformed? && fault == ReadFails ==> reply == InternalError
      ensures customerId.Wellformed? && fault != ReadFails ==>
        reply.OrderList? && forall o :: o in reply.orders <==> o in orders && o.customerId == customerId.id
      ensures reply != NotFound
    {
      if !customerId.Wellformed? {
        return BadRequest(InvalidCustomerId);
      }
      if fault == ReadFails {
        return InternalError;
      }
      reply := OrderList(OrdersOf(orders, customerId.id));
    }

    /** `POST /audience/size`: counts the matching customers and changes nothing. */
    method AudienceSize(filters: Option<seq<Filter>>, sat: (Customer, Query) -> bool, fault: Fault) returns (reply: Reply)
      ensures filters.None? || fault == ReadFails ==> reply == InternalError
      ensures filters.Some? && fault != ReadFails ==>
        reply.Size? && reply.size == |Matching(customers, BuildQuery(filters.value), sat)|
    {
      if filters.None? || fault == ReadFails {
        return InternalError;
      }
      var members := Matching(customers, BuildQuery(filters.value), sat);
      reply := Size(|members|);
    }

    /**
     * `POST /audience/save`. Saves one log recording the filters, the number of
     * matches and their ids in match order, and only then runs the send loop.
     * As written the loop's status updates are keyed by customer ids, so the
     * new log keeps its default status SENT whatever the sender answers.
     */
    method SaveAudience(filters: Option<seq<Filter>>, sat: (Customer, Query) -> bool,
                        respond: Customer -> SendOutcome, fault: Fault) returns (reply: Reply)
      requires Valid()
      modifies this
      ensures Valid()
      ensures filters.None? || fault == ReadFails || fault == WriteFails ==> reply == InternalError && unchanged(this)
      ensures filters.Some? && fault != ReadFails && fault != WriteFails ==>
        var members := Matching(old(customers), BuildQuery(filters.value), sat);
        var log := CommunicationLog(old(nextId), filters.value, |members|, Ids(members), SENT);
        reply == Ok &&
        customers == old(customers) && orders == old(orders) && nextId == old(nextId) + 1 &&
        logs == old(logs) + [log] &&
        trace == old(trace) + [SavedLog(log)] + SendTrace(members, respond)
    {
      if filters.None? || fault == ReadFails {
        return InternalError;
      }
      var members := Matching(customers, BuildQuery(filters.value), sat);
      if fault == WriteFails {
        return InternalError;
      }
      var log := CommunicationLog(nextId, filters.value, |members|, Ids(members), SENT);
      DisjointIds(customers, logs + [log], members);
      logs := logs + [log];
      nextId := nextId + 1;
      trace := trace + [SavedLog(log)];
      ghost var saved := logs;
      SendPersonalizedMessages(members, respond);
      SendsMissLogs(saved, members, respond);
      reply := Ok;
    }

    /** `sendPersonalizedMessages`: one attempt and one status update per member, in order; failures do not stop the loop. */
    method SendPersonalizedMessages(members: seq<Customer>, respond: Customer -> SendOutcome)
      modifies this
      ensures customers == old(customers) && orders == old(orders) && nextId == old(nextId)
      ensures logs == ApplySends(old(logs), members, respond)
      ensures trace == old(trace) + SendTrace(members, respond)
    {
      var i := 0;
      while i < |members|
        invariant 0 <= i <= |members|
        invariant customers == old(customers) && orders == old(orders) && nextId == old(nextId)
        invariant logs == ApplySends(old(logs), members[..i], respond)
        invariant trace == old(trace) + SendTrace(members[..i], respond)
      {
        var member := members[i];
        trace := trace + [Posted(Greeting(member.name), member.id)];
        var status := if Delivered(respond(member)) then SENT else FAILED;
        UpdateDeliveryStatus(member.id, status);
        assert members[..i + 1][..i] == members[..i];
        i := i + 1;
      }
      assert members[..|members|] == members;
    }

    /** `updateDeliveryStatus`: sets the status of the log with that id, if there is one. */
    method UpdateDeliveryStatus(logId: Id, status: string)
      modifies this
      ensures customers == old(customers) && orders == old(orders) && nextId == old(nextId)
      ensures logs == SetStatus(old(logs), logId, status)
      ensures trace == old(trace) + [StatusUpdate(logId, status)]
    {
      logs := SetStatus(logs, logId, status);
      trace := trace + [StatusUpdate(logId, status)];
    }

    /**
     * `POST /delivery-receipt`. The status is stored as given (the update does
     * not run the schema's enum check); an unknown id updates nothing and still
     * answers 200; a missing id is sent to the store as null, matches no log and
     * answers 200; a present id that is not an ObjectId, the empty string
     * included, fails to cast (500). There is no falsiness guard on this route.
     */
    method DeliveryReceipt(logId: IdInput, status: string, fault: Fault) returns (reply: Reply)
      requires Valid()
      modifies this
      ensures Valid()
      ensures customers == old(customers) && orders == old(orders) && nextId == old(nextId)
      ensures logId.Malformed? || fault == ReadFails || fault == WriteFails ==> reply == InternalError && unchanged(this)
      ensures logId.Absent? && fault != ReadFails && fault != WriteFails ==>
        reply == Ok && logs == old(logs) && trace == old(trace) + [NullStatusUpdate(status)]
      ensures logId.Wellformed? && fault != ReadFails && fault != WriteFails ==>
        reply == Ok && logs == SetStatus(old(logs), logId.id, status) &&
        trace == old(trace) + [StatusUpdate(logId.id, status)]
    {
      if logId.Malformed? || fault == ReadFails || fault == WriteFails {
        return InternalError;
      }
      if logId.Wellformed? {
        UpdateDeliveryStatus(logId.id, status);
      } else {
        trace := trace + [NullStatusUpdate(status)];
      }
      reply := Ok;
    }

    /** `GET /campaigns`: every log, in collection order. */
    method ListCampaigns(fault: Fault) returns (reply: Reply)
      ensures fault == ReadFails ==> reply == InternalError
      ensures fault != ReadFails ==> reply == CampaignList(logs)
    {
      if fault == ReadFails {
        return InternalError;
      }
      reply := CampaignList(logs);
    }
  }

  // ---------------------------------------------------------------------------
  // Scenarios on a fresh store
  // ---------------------------------------------------------------------------

  /**
   * A new email whose last visit is a date is created once; resubmitting it
   * with the same visit count is refused; resubmitting it with a new count
   * updates the one record.
   */
  method CustomerResubmission(input: CustomerInput, isDate: string -> bool) returns (first: Reply, again: Reply, bumped: Reply, records: nat)
    requires !MissingField(input) && input.totalvisits > 0 && isDate(input.lastvisit)
    ensures first == Ok && again == BadRequest(SameTotalVisits) && bumped == Ok && records == 1
  {
    var store := new Backend();
    first := store.SubmitCustomer(input, isDate, Healthy);
    assert store.customers[0].email == input.email;
    again := store.SubmitCustomer(input, isDate, Healthy);
    bumped := store.SubmitCustomer(input.(totalvisits := input.totalvisits + 1), isDate, Healthy);
    records := |store.customers|;
  }

  /** An order naming a customer that does not exist is accepted and published. */
  method OrderForUnknownCustomer(product: string, customerId: Id) returns (reply: Reply, published: bool)
    requires product != ""
    ensures reply == Ok && published
  {
    var store := new Backend();
    reply := store.SubmitOrder(product, Wellformed(customerId), Healthy);
    published := |store.trace| == 2 && store.trace[1].Published? && store.trace[1].payload.order.customerId == customerId;
  }
}
