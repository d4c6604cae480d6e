/** Inbound WhatsApp deliveries: deduplication by message id, and the customer, conversation and lead
    rows that each accepted delivery finds or creates. A delivery runs under its phone's lock, its rows
    in one transaction that commits or rolls back as a whole; the dedup row is written before it. */
module Inbound {
  import opened Wrappers
  import opened Windows
  import SlotMachine
  import Strings = Text

  const SESSION_TIMEOUT := 30 * MINUTE
  const THANKS := "\U{2B50} Thank you so much for your rating and review! We truly appreciate your feedback and look forward to serving you again."
  const PHOTO_RECEIPT := "Photo received and saved. Our team can view it. How can I help \U{2014} *BUY* or *SELL*?"

  datatype Customer = Customer(id: nat, phone: string, name: string)
  datatype Conversation = Conversation(id: nat, customer: nat, isOpen: bool, botEnabled: bool,
                                       lead: Option<nat>, cursor: string, updatedAt: int)
  datatype Lead = Lead(id: nat, customer: nat, status: string, data: string)
  datatype Message = Message(conversation: nat, inbound: bool, body: string)
  datatype Review = Review(lead: nat, rating: nat, text: string)

  /** Rows are kept in order of creation; ids come from a supply of fresh ones. Of follow-ups and bookings only the
      leads matter that have a review prompt, or a booking. */
  datatype Store = Store(processed: set<string>, nextId: nat, customers: seq<Customer>,
                         conversations: seq<Conversation>, leads: seq<Lead>, messages: seq<Message>,
                         prompted: set<nat>, booked: set<nat>, reviews: seq<Review>)

  /** One delivery. A photo carries no body. `commits` is false when its transaction fails. */
  datatype Delivery = Delivery(waId: string, photo: bool, phone: string, name: string, body: string, at: int, commits: bool) {
    /** The row of processed_messages it claims, if it has an id. */
    function Key(): Option<string> {
      if waId == "" then None else Some(if photo then "media:" + waId else waId)
    }
  }

  /** What the conversation engine makes of a message. */
  datatype Answer = Answer(reply: string, cursor: string, botEnabled: bool, status: string, data: string)
  type Engine = (bool, string, string, string) -> Answer

  function FindCustomer(cs: seq<Customer>, phone: string): (r: Option<nat>)
    ensures r.Some? ==> r.value < |cs| && cs[r.value].phone == phone
    ensures r.None? ==> forall i | 0 <= i < |cs| :: cs[i].phone != phone
  {
    if cs == [] then None
    else if cs[|cs| - 1].phone == phone then Some(|cs| - 1)
    else FindCustomer(cs[..|cs| - 1], phone)
  }

  /** SELECT .. WHERE customer_id=$1 AND status='open' ORDER BY created_at DESC LIMIT 1 */
  function LatestOpen(cs: seq<Conversation>, customer: nat): (r: Option<nat>)
    ensures r.Some? ==> r.value < |cs| && cs[r.value].isOpen && cs[r.value].customer == customer
    ensures r.None? ==> forall i | 0 <= i < |cs| :: !(cs[i].isOpen && cs[i].customer == customer)
  {
    if cs == [] then None
    else if cs[|cs| - 1].isOpen && cs[|cs| - 1].customer == customer then Some(|cs| - 1)
    else LatestOpen(cs[..|cs| - 1], customer)
  }

  function LatestLead(ls: seq<Lead>, customer: nat): (r: Option<nat>)
    ensures r.Some? ==> r.value < |ls| && ls[r.value].customer == customer
  {
    if ls == [] then None
    else if ls[|ls| - 1].customer == customer then Some(|ls| - 1)
    else LatestLead(ls[..|ls| - 1], customer)
  }

  predicate SessionExpired(updatedAt: int, now: int) {
    now - updatedAt > SESSION_TIMEOUT
  }

  /** The customer's row, created on the first contact; a text fills in a name that was never known. */
  function WithCustomer(s: Store, d: Delivery): (r: (Store, nat))
    ensures r.1 < |r.0.customers|
  {
    match FindCustomer(s.customers, d.phone)
    case None =>
      var c := Customer(s.nextId, d.phone, if d.name == "" then d.phone else d.name);
      (s.(customers := s.customers + [c], nextId := s.nextId + 1), |s.customers|)
    case Some(i) =>
      var c := s.customers[i];
      if !d.photo && d.name != "" && (c.name == "" || c.name == d.phone) then
        (s.(customers := s.customers[i := c.(name := d.name)]), i)
      else (s, i)
  }

  datatype Session = Session(index: nat, botEnabled: bool, isFresh: bool)

  function NewConversation(s: Store, customer: nat, now: int): Store {
    s.(conversations := s.conversations + [Conversation(s.nextId, customer, true, true, None, "", now)], nextId := s.nextId + 1)
  }

  /** The open conversation; a text closes one that has been idle too long and opens another, but keeps
      obeying the old one's takeover flag. */
  function WithSession(s: Store, d: Delivery, customer: nat): (r: (Store, Session))
    ensures r.1.index < |r.0.conversations|
  {
    match LatestOpen(s.conversations, customer)
    case None => (NewConversation(s, customer, d.at), Session(|s.conversations|, true, true))
    case Some(i) =>
      var c := s.conversations[i];
      if !d.photo && SessionExpired(c.updatedAt, d.at) then
        (NewConversation(s.(conversations := s.conversations[i := c.(isOpen := false, updatedAt := d.at)]), customer, d.at),
         Session(|s.conversations|, c.botEnabled, true))
      else (s, Session(i, c.botEnabled, false))
  }

  function WithLead(s: Store, d: Delivery, customer: nat, isFresh: bool): (r: (Store, nat))
    ensures r.1 < |r.0.leads|
  {
    match LatestLead(s.leads, customer)
    case Some(i) =>
      if !d.photo && (isFresh || s.leads[i].status == "DONE" || s.leads[i].status == "LOST") then NewLead(s, customer) else (s, i)
    case None => NewLead(s, customer)
  }

  function NewLead(s: Store, customer: nat): (r: (Store, nat))
    ensures r.1 < |r.0.leads|
  {
    (s.(leads := s.leads + [Lead(s.nextId, customer, "NEW", "")], nextId := s.nextId + 1), |s.leads|)
  }

  /** The rows a delivery works on, as positions in the store. */
  datatype Rows = Rows(store: Store, session: Session, lead: nat)

  function FindRows(s: Store, d: Delivery): (r: Rows)
    ensures r.session.index < |r.store.conversations| && r.lead < |r.store.leads|
  {
    var (s1, ci) := WithCustomer(s, d);
    var customer := s1.customers[ci].id;
    var (s2, session) := WithSession(s1, d, customer);
    var (s3, li) := WithLead(s2, d, customer, session.isFresh);
    Rows(s3, session, li)
  }

  function Text(d: Delivery): string {
    if d.photo then "[photo]" else d.body
  }

  /** The stars that a reply to a review prompt gives, 0 for none. */
  function Rating(body: string): nat {
    var t := SlotMachine.Norm(body);
    if Rates(t, "5", "five") then 5
    else if Rates(t, "4", "four") then 4
    else if Rates(t, "3", "three") then 3
    else if Rates(t, "2", "two") then 2
    else if Rates(t, "1", "one") then 1
    else 0
  }

  predicate Rates(t: string, digit: string, word: string) {
    Strings.HasPrefix(t, digit) || Strings.Contains(t, digit + " star") || Strings.Contains(t, word)
  }

  /** A text that rates a lead which was asked for a review. */
  predicate IsReview(s: Store, lead: nat, d: Delivery) {
    !d.photo && lead in s.prompted && Rating(d.body) > 0 && lead in s.booked
  }

  /** Storing the message and, unless a person has taken over, answering it. */
  function Converse(r: Rows, d: Delivery, engine: Engine): Store
    requires r.session.index < |r.store.conversations| && r.lead < |r.store.leads|
  {
    var s := r.store;
    var conv, lead := s.conversations[r.session.index], s.leads[r.lead];
    var stored := s.(messages := s.messages + [Message(conv.id, true, Text(d))]);
    if !r.session.botEnabled then
      var conv' := if d.photo then conv else conv.(lead := Some(lead.id), updatedAt := d.at);
      stored.(conversations := s.conversations[r.session.index := conv'])
    else if IsReview(s, lead.id, d) then TakeReview(stored, conv, lead.id, d)
    else TakeAnswer(stored, r, d, engine(r.session.isFresh, conv.cursor, lead.data, Text(d)))
  }

  /** A review is stored, thanked for, and not asked for again. */
  function TakeReview(s: Store, conv: Conversation, lead: nat, d: Delivery): Store {
    s.(reviews := s.reviews + [Review(lead, Rating(d.body), Strings.Trim(d.body))], prompted := s.prompted - {lead},
       messages := s.messages + [Message(conv.id, false, THANKS)])
  }

  /** Storing what the engine made of the message, and its reply. */
  function TakeAnswer(s: Store, r: Rows, d: Delivery, a: Answer): Store
    requires r.session.index < |s.conversations| && r.lead < |s.leads|
  {
    var conv, lead := s.conversations[r.session.index], s.leads[r.lead];
    var conv' := conv.(cursor := a.cursor, botEnabled := a.botEnabled,
                       lead := if d.photo then conv.lead else Some(lead.id),
                       updatedAt := if d.photo && a.cursor == conv.cursor then conv.updatedAt else d.at);
    var reply := if d.photo && a.reply == "" then PHOTO_RECEIPT else a.reply;
    s.(conversations := s.conversations[r.session.index := conv'],
       leads := s.leads[r.lead := lead.(status := a.status, data := a.data)],
       messages := if reply == "" then s.messages else s.messages + [Message(conv.id, false, reply)])
  }

  /** The transaction of a delivery: HandleInbound for a text, HandleMedia for a photo. */
  function Business(s: Store, d: Delivery, engine: Engine): Store {
    Converse(FindRows(s, d), d, engine)
  }

  /** A delivery: a repeated id is dropped before anything else happens. */
  function Handle(s: Store, d: Delivery, engine: Engine): Store {
    match d.Key()
    case Some(k) =>
      if k in s.processed then s
      else
        var s1 := s.(processed := s.processed + {k});
        if d.commits then Business(s1, d, engine) else s1
    case None => if d.commits then Business(s, d, engine) else s
  }

  function HandleAll(s: Store, ds: seq<Delivery>, engine: Engine): Store
    decreases |ds|
  {
    if ds == [] then s else HandleAll(Handle(s, ds[0], engine), ds[1..], engine)
  }

  /** The deliveries whose id was not seen before them. */
  function Firsts(ds: seq<Delivery>, seen: set<string>): seq<Delivery> {
    if ds == [] then []
    else
      match ds[0].Key()
      case None => [ds[0]] + Firsts(ds[1..], seen)
      case Some(k) => if k in seen then Firsts(ds[1..], seen) else [ds[0]] + Firsts(ds[1..], seen + {k})
  }

  lemma ConverseKeepsProcessed(r: Rows, d: Delivery, engine: Engine)
    requires r.session.index < |r.store.conversations| && r.lead < |r.store.leads|
    ensures Converse(r, d, engine).processed == r.store.processed
  {
  }

  lemma FindRowsKeepsProcessed(s: Store, d: Delivery)
    ensures FindRows(s, d).store.processed == s.processed
  {
  }

  lemma BusinessKeepsProcessed(s: Store, d: Delivery, engine: Engine)
    ensures Business(s, d, engine).processed == s.processed
  {
    FindRowsKeepsProcessed(s, d);
    ConverseKeepsProcessed(FindRows(s, d), d, engine);
  }

  /** Repeated deliveries leave no trace: any sequence of deliveries ends in the very state that its
      first occurrences alone lead to, even when some transactions fail. */
  lemma {:induction false} RepeatsLeaveNoTrace(s: Store, ds: seq<Delivery>, engine: Engine)
    ensures HandleAll(s, ds, engine) == HandleAll(s, Firsts(ds, s.processed), engine)
    decreases |ds|
  {
    if ds != [] {
      var d := ds[0];
      var s1 := Handle(s, d, engine);
      match d.Key() {
        case None => BusinessKeepsProcessed(s, d, engine);
        case Some(k) => BusinessKeepsProcessed(s.(processed := s.processed + {k}), d, engine);
      }
      RepeatsLeaveNoTrace(s1, ds[1..], engine);
      if !(d.Key().Some? && d.Key().value in s.processed) {
        var rest := Firsts(ds[1..], s1.processed);
        assert Firsts(ds, s.processed) == [d] + rest;
        assert ([d] + rest)[1..] == rest;
      }
    }
  }

  lemma {:induction false} ProcessedStays(s: Store, ds: seq<Delivery>, engine: Engine, k: string)
    requires k in s.processed
    ensures k in HandleAll(s, ds, engine).processed
    decreases |ds|
  {
    if ds != [] {
      var d := ds[0];
      match d.Key() {
        case None => BusinessKeepsProcessed(s, d, engine);
        case Some(key) => BusinessKeepsProcessed(s.(processed := s.processed + {key}), d, engine);
      }
      ProcessedStays(Handle(s, d, engine), ds[1..], engine, k);
    }
  }

  /** The price of writing the dedup row first: a message whose transaction failed changes nothing else, and it is
      ignored whenever it is delivered again, whatever was delivered in between. */
  lemma FailedDeliveryIsLost(s: Store, d: Delivery, between: seq<Delivery>, again: Delivery, engine: Engine)
    requires d.Key().Some? && again.Key() == d.Key() && !d.commits && d.Key().value !in s.processed
    ensures Handle(s, d, engine) == s.(processed := s.processed + {d.Key().value})
    ensures
      var t := HandleAll(Handle(s, d, engine), between, engine);
      Handle(t, again, engine) == t
  {
    ProcessedStays(Handle(s, d, engine), between, engine, d.Key().value);
  }

  /** Ids are fresh, each phone has one customer, each customer at most one open conversation. */
  ghost predicate Inv(s: Store) {
    && (forall i | 0 <= i < |s.customers| :: s.customers[i].id < s.nextId)
    && (forall i, j | 0 <= i < j < |s.customers| :: s.customers[i].id != s.customers[j].id && s.customers[i].phone != s.customers[j].phone)
    && (forall i | 0 <= i < |s.conversations| :: s.conversations[i].customer < s.nextId)
    && OneOpen(s.conversations)
  }

  ghost predicate OneOpen(cs: seq<Conversation>) {
    forall i, j | 0 <= i < j < |cs| && cs[i].isOpen && cs[j].isOpen :: cs[i].customer != cs[j].customer
  }

  lemma CustomerKeepsInv(s: Store, d: Delivery)
    requires Inv(s)
    ensures Inv(WithCustomer(s, d).0)
  {
  }

  lemma SessionKeepsInv(s: Store, d: Delivery, customer: nat)
    requires Inv(s) && customer < s.nextId
    ensures Inv(WithSession(s, d, customer).0)
    ensures
      var (t, session) := WithSession(s, d, customer);
      && t.conversations[session.index].isOpen && t.conversations[session.index].customer == customer
      && (session.isFresh <==> forall i | 0 <= i < |s.conversations| && s.conversations[i].isOpen && s.conversations[i].customer == customer ::
            !d.photo && d.at - s.conversations[i].updatedAt > SESSION_TIMEOUT)
  {
    var o := LatestOpen(s.conversations, customer);
    if o.Some? {
      assert forall i | 0 <= i < |s.conversations| && s.conversations[i].isOpen && s.conversations[i].customer == customer :: i == o.value;
    }
  }

  lemma FindRowsKeepsInv(s: Store, d: Delivery)
    requires Inv(s)
    ensures Inv(FindRows(s, d).store)
  {
    CustomerKeepsInv(s, d);
    var (s1, ci) := WithCustomer(s, d);
    SessionKeepsInv(s1, d, s1.customers[ci].id);
    var (s2, session) := WithSession(s1, d, s1.customers[ci].id);
    LeadKeepsInv(s2, d, s1.customers[ci].id, session.isFresh);
  }

  lemma LeadKeepsInv(s: Store, d: Delivery, customer: nat, isFresh: bool)
    requires Inv(s)
    ensures Inv(WithLead(s, d, customer, isFresh).0)
  {
  }

  lemma ConverseKeepsInv(r: Rows, d: Delivery, engine: Engine)
    requires r.session.index < |r.store.conversations| && r.lead < |r.store.leads|
    requires Inv(r.store)
    ensures Inv(Converse(r, d, engine))
  {
  }

  lemma BusinessKeepsInv(s: Store, d: Delivery, engine: Engine)
    requires Inv(s)
    ensures Inv(Business(s, d, engine))
  {
    FindRowsKeepsInv(s, d);
    ConverseKeepsInv(FindRows(s, d), d, engine);
  }

  lemma HandleKeepsInv(s: Store, d: Delivery, engine: Engine)
    requires Inv(s)
    ensures Inv(Handle(s, d, engine))
  {
    var s1 := if d.Key().Some? then s.(processed := s.processed + {d.Key().value}) else s;
    BusinessKeepsInv(s1, d, engine);
  }

  /** After any deliveries at any times, however the engine answers and whichever transactions fail:
      one customer per phone and at most one open conversation per customer. */
  lemma {:induction false} OneCustomerAndOneOpenChat(s: Store, ds: seq<Delivery>, engine: Engine)
    requires Inv(s)
    ensures Inv(HandleAll(s, ds, engine))
    decreases |ds|
  {
    if ds != [] {
      HandleKeepsInv(s, ds[0], engine);
      OneCustomerAndOneOpenChat(Handle(s, ds[0], engine), ds[1..], engine);
    }
  }

  function InboundCount(ms: seq<Message>): nat {
    if ms == [] then 0 else InboundCount(ms[..|ms| - 1]) + (if ms[|ms| - 1].inbound then 1 else 0)
  }

  function OutboundCount(ms: seq<Message>): nat {
    if ms == [] then 0 else OutboundCount(ms[..|ms| - 1]) + (if ms[|ms| - 1].inbound then 0 else 1)
  }

  lemma CountAppend(ms: seq<Message>, m: Message)
    ensures InboundCount(ms + [m]) == InboundCount(ms) + if m.inbound then 1 else 0
    ensures OutboundCount(ms + [m]) == OutboundCount(ms) + if m.inbound then 0 else 1
  {
    assert (ms + [m])[..|ms|] == ms;
  }

  /** The reply that a message gets, "" for none. */
  function ReplyTo(r: Rows, d: Delivery, engine: Engine): string
    requires r.session.index < |r.store.conversations| && r.lead < |r.store.leads|
  {
    var conv, lead := r.store.conversations[r.session.index], r.store.leads[r.lead];
    if !r.session.botEnabled then ""
    else if IsReview(r.store, lead.id, d) then THANKS
    else
      var a := engine(r.session.isFresh, conv.cursor, lead.data, Text(d));
      if d.photo && a.reply == "" then PHOTO_RECEIPT else a.reply
  }

  lemma ConverseStores(r: Rows, d: Delivery, engine: Engine)
    requires r.session.index < |r.store.conversations| && r.lead < |r.store.leads|
    ensures InboundCount(Converse(r, d, engine).messages) == InboundCount(r.store.messages) + 1
    ensures OutboundCount(Converse(r, d, engine).messages) == OutboundCount(r.store.messages) + if ReplyTo(r, d, engine) == "" then 0 else 1
  {
    var id, reply := r.store.conversations[r.session.index].id, ReplyTo(r, d, engine);
    var stored := r.store.messages + [Message(id, true, Text(d))];
    CountAppend(r.store.messages, Message(id, true, Text(d)));
    CountAppend(stored, Message(id, false, reply));
    assert Converse(r, d, engine).messages == if reply == "" then stored else stored + [Message(id, false, reply)];
  }

  lemma FindRowsKeepsMessages(s: Store, d: Delivery)
    ensures FindRows(s, d).store.messages == s.messages
  {
  }

  lemma BusinessStoresOneMessage(s: Store, d: Delivery, engine: Engine)
    ensures InboundCount(Business(s, d, engine).messages) == InboundCount(s.messages) + 1
  {
    FindRowsKeepsMessages(s, d);
    ConverseStores(FindRows(s, d), d, engine);
  }

  function Committed(ds: seq<Delivery>): nat {
    if ds == [] then 0 else (if ds[0].commits then 1 else 0) + Committed(ds[1..])
  }

  function KeyOf(d: Delivery): set<string> {
    if d.Key().Some? then {d.Key().value} else {}
  }

  lemma CommittedFirsts(ds: seq<Delivery>, seen: set<string>)
    requires ds != []
    ensures Committed(Firsts(ds, seen))
         == (if ds[0].commits && KeyOf(ds[0]) !! seen then 1 else 0) + Committed(Firsts(ds[1..], seen + KeyOf(ds[0])))
  {
    var rest := Firsts(ds[1..], seen + KeyOf(ds[0]));
    assert ([ds[0]] + rest)[1..] == rest;
    if ds[0].Key().Some? && ds[0].Key().value in seen {
      assert seen + KeyOf(ds[0]) == seen;
    } else {
      assert seen + {} == seen;
    }
  }

  lemma HandleKeepsKeys(s: Store, d: Delivery, engine: Engine)
    ensures Handle(s, d, engine).processed == s.processed + KeyOf(d)
  {
    BusinessKeepsProcessed(if d.Key().Some? then s.(processed := s.processed + {d.Key().value}) else s, d, engine);
  }

  lemma HandleStores(s: Store, d: Delivery, engine: Engine)
    ensures InboundCount(Handle(s, d, engine).messages)
         == InboundCount(s.messages) + if d.commits && KeyOf(d) !! s.processed then 1 else 0
  {
    BusinessStoresOneMessage(if d.Key().Some? then s.(processed := s.processed + {d.Key().value}) else s, d, engine);
  }

  /** Nothing is doubled: over any deliveries, whichever fail, the stored inbound messages grow by exactly the number of
      first occurrences that commit. */
  lemma {:induction false} EveryFirstDeliveryIsStoredOnce(s: Store, ds: seq<Delivery>, engine: Engine)
    ensures InboundCount(HandleAll(s, ds, engine).messages) == InboundCount(s.messages) + Committed(Firsts(ds, s.processed))
    decreases |ds|
  {
    if ds != [] {
      var d := ds[0];
      HandleStores(s, d, engine);
      HandleKeepsKeys(s, d, engine);
      EveryFirstDeliveryIsStoredOnce(Handle(s, d, engine), ds[1..], engine);
      CommittedFirsts(ds, s.processed);
    }
  }

  lemma {:induction false} AllCommittedExactlyWhen(ds: seq<Delivery>)
    ensures Committed(ds) <= |ds| && (Committed(ds) == |ds| <==> forall i | 0 <= i < |ds| :: ds[i].commits)
  {
    if ds != [] {
      AllCommittedExactlyWhen(ds[1..]);
    }
  }

  /** So every message that is delivered, once or more, is stored exactly when every first occurrence commits. */
  lemma NothingIsLostExactlyWhen(s: Store, ds: seq<Delivery>, engine: Engine)
    ensures
      var firsts := Firsts(ds, s.processed);
      InboundCount(HandleAll(s, ds, engine).messages) == InboundCount(s.messages) + |firsts|
      <==> forall i | 0 <= i < |firsts| :: firsts[i].commits
  {
    EveryFirstDeliveryIsStoredOnce(s, ds, engine);
    AllCommittedExactlyWhen(Firsts(ds, s.processed));
  }

  // ---- takeover ----

  /** The open conversation of a phone, if there is one. */
  function OpenChat(s: Store, phone: string): Option<Conversation> {
    match FindCustomer(s.customers, phone)
    case None => None
    case Some(i) =>
      match LatestOpen(s.conversations, s.customers[i].id)
      case None => None
      case Some(j) => Some(s.conversations[j])
  }

  /** A person has taken over the open conversation. */
  predicate TakenOver(s: Store, phone: string) {
    OpenChat(s, phone).Some? && !OpenChat(s, phone).value.botEnabled
  }

  /** Not a repeated id, and its transaction commits. */
  predicate GoesThrough(s: Store, d: Delivery) {
    d.commits && !(d.Key().Some? && d.Key().value in s.processed)
  }

  ghost predicate AlwaysReplies(engine: Engine) {
    forall isFresh, cursor, data, text :: engine(isFresh, cursor, data, text).reply != ""
  }

  lemma NewCustomerHasNoChat(s: Store, d: Delivery)
    requires Inv(s) && FindCustomer(s.customers, d.phone).None?
    ensures forall i | 0 <= i < |s.conversations| :: s.conversations[i].customer != s.nextId
  {
  }

  /** The session obeys the flag of the open conversation, also of one that it closes. */
  lemma SessionObeysTheOpenChat(s: Store, d: Delivery)
    requires Inv(s)
    ensures FindRows(s, d).session.botEnabled <==> !TakenOver(s, d.phone)
  {
    var found := FindCustomer(s.customers, d.phone);
    if found.None? {
      NewCustomerHasNoChat(s, d);
      assert LatestOpen(s.conversations, s.nextId).None?;
    } else {
      assert WithCustomer(s, d).0.conversations == s.conversations;
      assert WithCustomer(s, d).0.customers[found.value].id == s.customers[found.value].id;
    }
  }

  /** A message that goes through is stored, and no reply is stored with it if and only if the open conversation is
      taken over. */
  lemma SilenceExactlyUnderTakeover(s: Store, d: Delivery, engine: Engine)
    requires Inv(s) && GoesThrough(s, d)
    ensures
      var t := Handle(s, d, engine);
      && InboundCount(t.messages) == InboundCount(s.messages) + 1
      && (AlwaysReplies(engine) ==> OutboundCount(t.messages) == OutboundCount(s.messages) + if TakenOver(s, d.phone) then 0 else 1)
      && (TakenOver(s, d.phone) ==> OutboundCount(t.messages) == OutboundCount(s.messages))
  {
    var s1 := if d.Key().Some? then s.(processed := s.processed + {d.Key().value}) else s;
    SessionObeysTheOpenChat(s1, d);
    FindRowsKeepsMessages(s1, d);
    ConverseStores(FindRows(s1, d), d, engine);
  }

  lemma SessionIsOpen(s: Store, d: Delivery)
    requires Inv(s)
    ensures
      var r, ci := FindRows(s, d), WithCustomer(s, d).1;
      && ci < |r.store.customers| && r.store.customers[ci].phone == d.phone
      && r.store.conversations[r.session.index].isOpen
      && r.store.conversations[r.session.index].customer == r.store.customers[ci].id
  {
    var (s1, ci) := WithCustomer(s, d);
    CustomerKeepsInv(s, d);
    SessionKeepsInv(s1, d, s1.customers[ci].id);
  }

  /** After a message the open conversation of its phone is the one the session used. */
  lemma SessionIsTheOpenChat(s: Store, d: Delivery, engine: Engine)
    requires Inv(s)
    ensures
      var t, index := Business(s, d, engine), FindRows(s, d).session.index;
      index < |t.conversations| && OpenChat(t, d.phone) == Some(t.conversations[index])
  {
    var r, ci := FindRows(s, d), WithCustomer(s, d).1;
    SessionIsOpen(s, d);
    BusinessKeepsInv(s, d, engine);
    ConverseKeepsChat(r, d, engine);
    OpenChatIs(Converse(r, d, engine), d.phone, ci, r.session.index);
  }

  lemma OpenChatIs(s: Store, phone: string, ci: nat, i: nat)
    requires Inv(s) && ci < |s.customers| && s.customers[ci].phone == phone
    requires i < |s.conversations| && s.conversations[i].isOpen && s.conversations[i].customer == s.customers[ci].id
    ensures OpenChat(s, phone) == Some(s.conversations[i])
  {
    CustomerIsFound(s, phone, ci);
    OpenChatIsLatest(s.conversations, i);
  }

  lemma ConverseKeepsChat(r: Rows, d: Delivery, engine: Engine)
    requires r.session.index < |r.store.conversations| && r.lead < |r.store.leads|
    ensures
      var t, i := Converse(r, d, engine), r.session.index;
      && t.customers == r.store.customers && |t.conversations| == |r.store.conversations|
      && t.conversations[i].customer == r.store.conversations[i].customer && t.conversations[i].isOpen == r.store.conversations[i].isOpen
      && (!r.session.botEnabled ==> t.conversations[i].botEnabled == r.store.conversations[i].botEnabled)
  {
  }

  lemma CustomerIsFound(s: Store, phone: string, i: nat)
    requires Inv(s) && i < |s.customers| && s.customers[i].phone == phone
    ensures FindCustomer(s.customers, phone) == Some(i)
  {
    var found := FindCustomer(s.customers, phone);
    assert found.Some?;
  }

  lemma OpenChatIsLatest(cs: seq<Conversation>, i: nat)
    requires OneOpen(cs) && i < |cs| && cs[i].isOpen
    ensures LatestOpen(cs, cs[i].customer) == Some(i)
  {
    var found := LatestOpen(cs, cs[i].customer);
    assert found.Some?;
  }

  /** A text under takeover ends the takeover exactly when the conversation had been idle too long. */
  lemma TakeoverEndsExactlyByTimeout(s: Store, d: Delivery, engine: Engine)
    requires Inv(s) && GoesThrough(s, d) && !d.photo && TakenOver(s, d.phone)
    ensures TakenOver(Handle(s, d, engine), d.phone) <==> !SessionExpired(OpenChat(s, d.phone).value.updatedAt, d.at)
  {
    var s1 := if d.Key().Some? then s.(processed := s.processed + {d.Key().value}) else s;
    SessionObeysTheOpenChat(s1, d);
    SessionIsTheOpenChat(s1, d, engine);
    ConverseKeepsChat(FindRows(s1, d), d, engine);
    ExpiredChatIsReplaced(s1, d);
  }

  lemma ExpiredChatIsReplaced(s: Store, d: Delivery)
    requires Inv(s) && !d.photo && TakenOver(s, d.phone)
    ensures
      var r := FindRows(s, d);
      r.store.conversations[r.session.index].botEnabled <==> SessionExpired(OpenChat(s, d.phone).value.updatedAt, d.at)
  {
    var i := FindCustomer(s.customers, d.phone).value;
    assert WithCustomer(s, d).0.conversations == s.conversations;
    assert WithCustomer(s, d).0.customers[i].id == s.customers[i].id;
  }

  /** Under takeover a text gets no reply, and the message after it gets one if and only if the text came after the
      timeout: it opened a new conversation with the bot on, but was itself still met with silence. */
  lemma TakeoverOutlivesItsSessionByOneMessage(s: Store, d: Delivery, next: Delivery, engine: Engine)
    requires Inv(s) && GoesThrough(s, d) && !d.photo && TakenOver(s, d.phone)
    requires next.phone == d.phone && GoesThrough(Handle(s, d, engine), next)
    ensures
      var one := Handle(s, d, engine);
      var two := Handle(one, next, engine);
      && OutboundCount(one.messages) == OutboundCount(s.messages)
      && (AlwaysReplies(engine) ==>
            OutboundCount(two.messages) == OutboundCount(one.messages)
              + if SessionExpired(OpenChat(s, d.phone).value.updatedAt, d.at) then 1 else 0)
  {
    SilenceExactlyUnderTakeover(s, d, engine);
    TakeoverEndsExactlyByTimeout(s, d, engine);
    HandleKeepsInv(s, d, engine);
    SilenceExactlyUnderTakeover(Handle(s, d, engine), next, engine);
  }

  // ---- reviews ----

  function ReviewsOf(rs: seq<Review>, lead: nat): nat {
    if rs == [] then 0 else ReviewsOf(rs[..|rs| - 1], lead) + if rs[|rs| - 1].lead == lead then 1 else 0
  }

  /** A lead's reviews, and the one it is still asked for. */
  function ReviewsDue(s: Store, lead: nat): nat {
    ReviewsOf(s.reviews, lead) + if lead in s.prompted then 1 else 0
  }

  lemma ReviewUsesThePrompt(s: Store, conv: Conversation, rated: nat, d: Delivery, lead: nat)
    requires rated in s.prompted
    ensures ReviewsDue(TakeReview(s, conv, rated, d), lead) == ReviewsDue(s, lead)
  {
    var review := Review(rated, Rating(d.body), Strings.Trim(d.body));
    assert (s.reviews + [review])[..|s.reviews|] == s.reviews;
  }

  lemma ConverseKeepsReviewsDue(r: Rows, d: Delivery, engine: Engine, lead: nat)
    requires r.session.index < |r.store.conversations| && r.lead < |r.store.leads|
    ensures ReviewsDue(Converse(r, d, engine), lead) == ReviewsDue(r.store, lead)
  {
    var conv := r.store.conversations[r.session.index];
    var stored := r.store.(messages := r.store.messages + [Message(conv.id, true, Text(d))]);
    if IsReview(r.store, r.store.leads[r.lead].id, d) {
      ReviewUsesThePrompt(stored, conv, r.store.leads[r.lead].id, d, lead);
    }
  }

  lemma FindRowsKeepsReviews(s: Store, d: Delivery)
    ensures FindRows(s, d).store.prompted == s.prompted && FindRows(s, d).store.reviews == s.reviews
  {
  }

  lemma HandleKeepsReviewsDue(s: Store, d: Delivery, engine: Engine, lead: nat)
    ensures ReviewsDue(Handle(s, d, engine), lead) == ReviewsDue(s, lead)
  {
    var s1 := if d.Key().Some? then s.(processed := s.processed + {d.Key().value}) else s;
    FindRowsKeepsReviews(s1, d);
    ConverseKeepsReviewsDue(FindRows(s1, d), d, engine, lead);
  }

  /** Over any deliveries, each review prompt is answered by at most one review, and each review used up its prompt. */
  lemma {:induction false} EachPromptYieldsOneReview(s: Store, ds: seq<Delivery>, engine: Engine, lead: nat)
    ensures ReviewsDue(HandleAll(s, ds, engine), lead) == ReviewsDue(s, lead)
    decreases |ds|
  {
    if ds != [] {
      HandleKeepsReviewsDue(s, ds[0], engine, lead);
      EachPromptYieldsOneReview(Handle(s, ds[0], engine), ds[1..], engine, lead);
    }
  }

  /** The tables behind the handlers, updated statement by statement. */
  class Tables {
    var processed: set<string>
    var nextId: nat
    var customers: seq<Customer>
    var conversations: seq<Conversation>
    var leads: seq<Lead>
    var messages: seq<Message>
    var prompted: set<nat>
    var booked: set<nat>
    var reviews: seq<Review>

    constructor ()
      ensures Snapshot() == Store({}, 0, [], [], [], [], {}, {}, []) && Inv(Snapshot())
    {
      processed, nextId, customers, conversations, leads, messages := {}, 0, [], [], [], [];
      prompted, booked, reviews := {}, {}, [];
    }

    function Snapshot(): Store
      reads this
    {
      Store(processed, nextId, customers, conversations, leads, messages, prompted, booked, reviews)
    }

    method UpsertCustomer(d: Delivery) returns (i: nat)
      modifies this`customers, this`nextId
      ensures (Snapshot(), i) == WithCustomer(old(Snapshot()), d)
      ensures i < |customers|
    {
      var found := FindCustomer(customers, d.phone);
      if found.None? {
        var name := if d.name == "" then d.phone else d.name;
        i := |customers|;
        customers := customers + [Customer(nextId, d.phone, name)];
        nextId := nextId + 1;
      } else {
        i := found.value;
        var c := customers[i];
        if !d.photo && d.name != "" && (c.name == "" || c.name == d.phone) {
          customers := customers[i := c.(name := d.name)];
        }
      }
    }

    method OpenSession(d: Delivery, customer: nat) returns (session: Session)
      modifies this`conversations, this`nextId
      ensures (Snapshot(), session) == WithSession(old(Snapshot()), d, customer)
      ensures session.index < |conversations|
    {
      var found := LatestOpen(conversations, customer);
      if found.Some? {
        var c := conversations[found.value];
        if d.photo || !SessionExpired(c.updatedAt, d.at) {
          return Session(found.value, c.botEnabled, false);
        }
        conversations := conversations[found.value := c.(isOpen := false, updatedAt := d.at)];
        session := Session(|conversations|, c.botEnabled, true);
      } else {
        session := Session(|conversations|, true, true);
      }
      conversations := conversations + [Conversation(nextId, customer, true, true, None, "", d.at)];
      nextId := nextId + 1;
    }

    method PickLead(d: Delivery, customer: nat, isFresh: bool) returns (i: nat)
      modifies this`leads, this`nextId
      ensures (Snapshot(), i) == WithLead(old(Snapshot()), d, customer, isFresh)
      ensures i < |leads|
    {
      var found := LatestLead(leads, customer);
      if found.Some? {
        i := found.value;
        if d.photo || !(isFresh || leads[i].status == "DONE" || leads[i].status == "LOST") {
          return;
        }
      }
      i := |leads|;
      leads := leads + [Lead(nextId, customer, "NEW", "")];
      nextId := nextId + 1;
    }

    /** HandleInbound and HandleMedia with a transaction that commits. */
    method HandleDelivery(d: Delivery, engine: Engine)
      requires d.commits
      modifies this
      ensures Snapshot() == Handle(old(Snapshot()), d, engine)
    {
      if d.waId != "" {
        var key := if d.photo then "media:" + d.waId else d.waId;
        if key in processed {
          return;
        }
        processed := processed + {key};
      }
      var ci := UpsertCustomer(d);
      var customer := customers[ci].id;
      var session := OpenSession(d, customer);
      var li := PickLead(d, customer, session.isFresh);
      Reply(Rows(Snapshot(), session, li), d, engine);
    }

    method Reply(r: Rows, d: Delivery, engine: Engine)
      requires r.store == Snapshot() && r.session.index < |conversations| && r.lead < |leads|
      modifies this
      ensures Snapshot() == Converse(r, d, engine)
    {
      var ci, li := r.session.index, r.lead;
      var conv, lead := conversations[ci], leads[li];
      messages := messages + [Message(conv.id, true, Text(d))];
      if !r.session.botEnabled {
        if !d.photo {
          conversations := conversations[ci := conv.(lead := Some(lead.id), updatedAt := d.at)];
        }
        return;
      }
      if IsReview(Snapshot(), lead.id, d) {
        reviews := reviews + [Review(lead.id, Rating(d.body), Strings.Trim(d.body))];
        prompted := prompted - {lead.id};
        messages := messages + [Message(conv.id, false, THANKS)];
        return;
      }
      var a := engine(r.session.isFresh, conv.cursor, lead.data, Text(d));
      leads := leads[li := lead.(status := a.status, data := a.data)];
      var reply := a.reply;
      if d.photo {
        var touched := if a.cursor == conv.cursor then conv.updatedAt else d.at;
        conversations := conversations[ci := conv.(cursor := a.cursor, botEnabled := a.botEnabled, updatedAt := touched)];
        if reply == "" {
          reply := PHOTO_RECEIPT;
        }
      } else {
        conversations := conversations[ci := conv.(cursor := a.cursor, botEnabled := a.botEnabled,
                                                   lead := Some(lead.id), updatedAt := d.at)];
      }
      if reply != "" {
        messages := messages + [Message(conv.id, false, reply)];
      }
    }
  }
}
