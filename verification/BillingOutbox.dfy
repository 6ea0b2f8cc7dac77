/**
 * Billing webhooks and their lifecycle messages: `PaymentWebhookSinkLive.process`
 * (apps/api/src/automation-providers.ts), over the event claim of packages/services/src/billing-webhooks.ts and
 * the keyed message table of packages/services/src/messaging.ts.
 */
module BillingOutbox {
  import opened Wrappers

  datatype Event =
    | SubscriptionChanged(eventId: string, providerEventType: string)
    | AddonSubscriptionChanged(eventId: string, providerEventType: string)
    | UnrecognizedSubscriptionChanged(eventId: string, providerEventType: string)
    | TransactionChanged(eventId: string, providerEventType: string)

  datatype Kind = Identify | Subscription | Addon | Unrecognized | Payment | PaymentFailed

  function Suffix(kind: Kind): string {
    match kind
    case Identify => "identify"
    case Subscription => "subscription"
    case Addon => "addon"
    case Unrecognized => "unrecognized"
    case Payment => "payment"
    case PaymentFailed => ""
  }

  function KeyOf(eventId: string, kind: Kind): string {
    if kind.PaymentFailed? then "payment-failed:" + eventId
    else "billing:" + eventId + ":" + Suffix(kind)
  }

  /** The messages an event owes, in the order `process` writes them (lines 725-799). */
  function KindsOf(event: Event): seq<Kind> {
    match event
    case SubscriptionChanged(_, _) => [Identify, Subscription]
    case AddonSubscriptionChanged(_, _) => [Addon]
    case UnrecognizedSubscriptionChanged(_, _) => [Unrecognized]
    case TransactionChanged(_, eventType) => if eventType == "payment.failed" then [Payment, PaymentFailed] else [Payment]
  }

  /** `billingOutboxKeys` (lines 452-473). */
  function BillingOutboxKeys(event: Event): seq<string> {
    match event
    case SubscriptionChanged(id, _) => ["billing:" + id + ":identify", "billing:" + id + ":subscription"]
    case AddonSubscriptionChanged(id, _) => ["billing:" + id + ":addon"]
    case UnrecognizedSubscriptionChanged(id, _) => ["billing:" + id + ":unrecognized"]
    case TransactionChanged(id, eventType) =>
      if eventType == "payment.failed" then ["billing:" + id + ":payment", "payment-failed:" + id]
      else ["billing:" + id + ":payment"]
  }

  lemma SuffixHasNoColon(kind: Kind)
    ensures ':' !in Suffix(kind)
  {
  }

  lemma SuffixesDiffer(a: Kind, b: Kind)
    requires !a.PaymentFailed? && !b.PaymentFailed? && Suffix(a) == Suffix(b)
    ensures a == b
  {
  }

  lemma ColonPosition(x: string, s: string)
    requires ':' !in s
    ensures (x + ":" + s)[|x|] == ':' && forall k | |x| < k < |x + ":" + s| :: (x + ":" + s)[k] != ':'
  {
  }

  /** What follows the last colon, and what precedes it, are determined by the whole. */
  lemma LastColonSplits(x: string, s: string, y: string, t: string)
    requires x + ":" + s == y + ":" + t && ':' !in s && ':' !in t
    ensures x == y && s == t
  {
    var whole := x + ":" + s;
    ColonPosition(x, s);
    ColonPosition(y, t);
    assert |x| == |y|;
    assert whole[..|x|] == x && whole[..|y|] == y;
    assert whole[|x| + 1..] == s && whole[|y| + 1..] == t;
  }

  lemma BillingKeysInjective(id: string, s: string, id': string, s': string)
    requires ':' !in s && ':' !in s' && "billing:" + id + ":" + s == "billing:" + id' + ":" + s'
    ensures id == id' && s == s'
  {
    LastColonSplits("billing:" + id, s, "billing:" + id', s');
    assert ("billing:" + id)[8..] == id && ("billing:" + id')[8..] == id';
  }

  lemma FailedKeysInjective(id: string, id': string)
    requires KeyOf(id, PaymentFailed) == KeyOf(id', PaymentFailed)
    ensures id == id'
  {
    assert KeyOf(id, PaymentFailed)[15..] == id && KeyOf(id', PaymentFailed)[15..] == id';
  }

  lemma FirstLetter(id: string, kind: Kind)
    ensures KeyOf(id, kind) != [] && KeyOf(id, kind)[0] == if kind.PaymentFailed? then 'p' else 'b'
  {
  }

  /** Different pairs of event id and message kind never share a key, whatever colons the ids contain. */
  lemma KeysAreInjective(id: string, kind: Kind, id': string, kind': Kind)
    requires KeyOf(id, kind) == KeyOf(id', kind')
    ensures id == id' && kind == kind'
  {
    FirstLetter(id, kind);
    FirstLetter(id', kind');
    if kind.PaymentFailed? {
      FailedKeysInjective(id, id');
    } else {
      SuffixHasNoColon(kind);
      SuffixHasNoColon(kind');
      BillingKeysInjective(id, Suffix(kind), id', Suffix(kind'));
      SuffixesDiffer(kind, kind');
    }
  }

  lemma KeysDiffer(id: string, kind: Kind, kind': Kind)
    requires kind != kind'
    ensures KeyOf(id, kind) != KeyOf(id, kind')
  {
    if KeyOf(id, kind) == KeyOf(id, kind') {
      KeysAreInjective(id, kind, id, kind');
    }
  }

  /** The listed keys are those of the owed messages, in the same order and without repetition. */
  lemma KeysOfKinds(event: Event)
    ensures |BillingOutboxKeys(event)| == |KindsOf(event)| && 1 <= |KindsOf(event)| <= 2
    ensures forall i | 0 <= i < |KindsOf(event)| :: BillingOutboxKeys(event)[i] == KeyOf(event.eventId, KindsOf(event)[i])
    ensures |KindsOf(event)| == 2 ==> BillingOutboxKeys(event)[0] != BillingOutboxKeys(event)[1]
  {
    var id := event.eventId;
    SplitSuffix("billing:" + id, ":identify", "identify");
    SplitSuffix("billing:" + id, ":subscription", "subscription");
    SplitSuffix("billing:" + id, ":addon", "addon");
    SplitSuffix("billing:" + id, ":unrecognized", "unrecognized");
    SplitSuffix("billing:" + id, ":payment", "payment");
    if event.SubscriptionChanged? {
      KeysDiffer(id, Identify, Subscription);
    } else if event.TransactionChanged? {
      KeysDiffer(id, Payment, PaymentFailed);
    }
  }

  lemma SplitSuffix(prefix: string, full: string, suffix: string)
    requires full == ":" + suffix
    ensures prefix + full == prefix + ":" + suffix
  {
  }

  /** Claimed event ids, and the idempotency keys of the stored messages in insertion order. */
  datatype Outbox = Outbox(claimed: set<string>, rows: seq<string>)

  /**
   * One delivery of an event. `outdated` is the verdict of the provider timestamp comparison at the first claim,
   * `email` whether the owner's address is known, `lifecycle` and `cancelling` the owner's messaging preferences.
   * `cut` effects complete before the process dies: the claim first, then each message write in order.
   */
  datatype Delivery = Delivery(event: Event, outdated: bool, email: bool, lifecycle: bool, cancelling: bool, cut: nat)

  const CANCELLATION_ALLOWED: set<string> :=
    {"cancellation_scheduled", "subscription.active", "payment_failed", "payment_succeeded"}

  /** The name under which a message is tracked. */
  function TrackedName(event: Event): string {
    if event.TransactionChanged? then
      if event.providerEventType == "payment.failed" then "payment_failed" else "payment_succeeded"
    else event.providerEventType
  }

  /** `track` drops a message on the owner's preference or during a cancellation (messaging.ts:213-234). */
  predicate Suppressed(d: Delivery, kind: Kind) {
    && !kind.Identify? && !kind.PaymentFailed?
    && (!d.lifecycle || (d.cancelling && TrackedName(d.event) !in CANCELLATION_ALLOWED))
  }

  /** Only subscription and add-on events are compared with the stored provider time (billing-webhooks.ts). */
  predicate Stale(box: Outbox, d: Delivery) {
    && d.event.eventId !in box.claimed
    && d.outdated && (d.event.SubscriptionChanged? || d.event.AddonSubscriptionChanged?)
  }

  /** Insert-if-absent on the unique key. */
  function Write(rows: seq<string>, key: string): seq<string> {
    if key in rows then rows else rows + [key]
  }

  function WriteKinds(rows: seq<string>, d: Delivery, kinds: seq<Kind>): seq<string>
    decreases |kinds|
  {
    if kinds == [] then rows
    else
      var next := if Suppressed(d, kinds[0]) then rows else Write(rows, KeyOf(d.event.eventId, kinds[0]));
      WriteKinds(next, d, kinds[1..])
  }

  /** `SELECT count(*) ... WHERE idempotency_key = k0 OR idempotency_key = k1`. */
  function Count(rows: seq<string>, k0: string, k1: string): nat {
    if rows == [] then 0
    else Count(rows[..|rows| - 1], k0, k1) + if rows[|rows| - 1] in {k0, k1} then 1 else 0
  }

  function SecondKey(keys: seq<string>): string
    requires keys != []
  {
    if |keys| > 1 then keys[1] else keys[0]
  }

  /** The kinds a delivery gets to before it dies. */
  function Reached(d: Delivery): seq<Kind> {
    if d.cut >= 1 + |KindsOf(d.event)| then KindsOf(d.event)
    else if d.cut == 0 then [] else KindsOf(d.event)[..d.cut - 1]
  }

  predicate AlreadyDelivered(box: Outbox, event: Event) {
    var keys := BillingOutboxKeys(event);
    Count(box.rows, keys[0], SecondKey(keys)) == |keys|
  }

  /** `process` on a normalized event (lines 673-800). */
  function Deliver(box: Outbox, d: Delivery): Outbox {
    if d.cut == 0 then box
    else
      var id := d.event.eventId;
      var claimed := Outbox(box.claimed + {id}, box.rows);
      if Stale(box, d) then claimed
      else if id in box.claimed && AlreadyDelivered(box, d.event) then claimed
      else if !d.email then claimed
      else Outbox(claimed.claimed, WriteKinds(box.rows, d, Reached(d)))
  }

  lemma {:induction false} CountOfDistinct(rows: seq<string>, k0: string, k1: string)
    requires Distinct(rows)
    ensures Count(rows, k0, k1) == (if k0 in rows then 1 else 0) + (if k1 != k0 && k1 in rows then 1 else 0)
  {
    if rows != [] {
      var init, last := rows[..|rows| - 1], rows[|rows| - 1];
      assert rows == init + [last];
      CountOfDistinct(init, k0, k1);
    }
  }

  /** The two-key count recognises exactly the events all of whose own messages are stored. */
  lemma AlreadyDeliveredIff(box: Outbox, event: Event)
    requires Distinct(box.rows)
    ensures AlreadyDelivered(box, event) <==> forall kind | kind in KindsOf(event) :: KeyOf(event.eventId, kind) in box.rows
  {
    KeysOfKinds(event);
    var keys, kinds := BillingOutboxKeys(event), KindsOf(event);
    CountOfDistinct(box.rows, keys[0], SecondKey(keys));
    assert keys[0] == KeyOf(event.eventId, kinds[0]);
    if |kinds| == 2 {
      assert keys[1] == KeyOf(event.eventId, kinds[1]);
      assert kinds == [kinds[0], kinds[1]];
    } else {
      assert kinds == [kinds[0]];
    }
  }

  lemma {:induction false} WriteKindsEffect(rows: seq<string>, d: Delivery, kinds: seq<Kind>)
    requires Distinct(rows)
    ensures Distinct(WriteKinds(rows, d, kinds)) && rows <= WriteKinds(rows, d, kinds)
    ensures forall k :: k in WriteKinds(rows, d, kinds) <==>
      k in rows || exists kind | kind in kinds :: !Suppressed(d, kind) && k == KeyOf(d.event.eventId, kind)
    decreases |kinds|
  {
    if kinds != [] {
      var next := if Suppressed(d, kinds[0]) then rows else Write(rows, KeyOf(d.event.eventId, kinds[0]));
      WriteKindsEffect(next, d, kinds[1..]);
      assert kinds == [kinds[0]] + kinds[1..];
    }
  }

  /** A delivery gets to its i-th message exactly when it survives the claim and i + 1 writes. */
  lemma ReachedIff(d: Delivery, i: nat)
    requires i < |KindsOf(d.event)|
    ensures KindsOf(d.event)[i] in Reached(d) <==> d.cut >= i + 2
  {
  }

  /**
   * Exactly what one delivery does: the table only grows and stays free of duplicates, a key of another event is
   * never added, and the i-th message of this event is stored afterwards if and only if it was before, or this
   * delivery is not stale, knows the address, is not told to suppress it, and survives to its write.
   */
  lemma DeliverWritesExactly(box: Outbox, d: Delivery, i: nat)
    requires Distinct(box.rows) && i < |KindsOf(d.event)|
    ensures var after := Deliver(box, d);
            var key := KeyOf(d.event.eventId, KindsOf(d.event)[i]);
            key in after.rows <==>
              key in box.rows || (d.cut >= i + 2 && !Stale(box, d) && d.email && !Suppressed(d, KindsOf(d.event)[i]))
  {
    var kind := KindsOf(d.event)[i];
    WriteKindsEffect(box.rows, d, Reached(d));
    AlreadyDeliveredIff(box, d.event);
    ReachedIff(d, i);
    forall other | other in Reached(d) && KeyOf(d.event.eventId, other) == KeyOf(d.event.eventId, kind) ensures other == kind {
      KeysAreInjective(d.event.eventId, other, d.event.eventId, kind);
    }
  }

  lemma DeliverFrame(box: Outbox, d: Delivery)
    requires Distinct(box.rows)
    ensures var after := Deliver(box, d);
            && Distinct(after.rows) && box.rows <= after.rows
            && after.claimed == box.claimed + (if d.cut == 0 then {} else {d.event.eventId})
            && (forall k | k in after.rows && k !in box.rows :: k in BillingOutboxKeys(d.event))
  {
    WriteKindsEffect(box.rows, d, Reached(d));
    KeysOfKinds(d.event);
  }

  function DeliverAll(box: Outbox, deliveries: seq<Delivery>): Outbox {
    if deliveries == [] then box
    else Deliver(DeliverAll(box, deliveries[..|deliveries| - 1]), deliveries[|deliveries| - 1])
  }

  /** Provider event ids name events: every delivery of an id carries the same event. */
  predicate Consistent(deliveries: seq<Delivery>, event: Event) {
    forall d | d in deliveries && d.event.eventId == event.eventId :: d.event == event
  }

  /** No message of this event id is stored, of whatever kind. */
  ghost predicate Unsent(box: Outbox, id: string) {
    forall kind :: KeyOf(id, kind) !in box.rows
  }

  /** The stored messages of this event id are among those the event owes. */
  ghost predicate OnlyOwed(box: Outbox, event: Event) {
    forall kind | KeyOf(event.eventId, kind) in box.rows :: kind in KindsOf(event)
  }

  /** The stored messages of this event id are exactly those the event owes. */
  ghost predicate ExactlyOwed(box: Outbox, event: Event) {
    forall kind :: KeyOf(event.eventId, kind) in box.rows <==> kind in KindsOf(event)
  }

  /** A delivery that can complete the event's messages. */
  predicate Complete(box: Outbox, d: Delivery) {
    && d.cut >= 1 + |KindsOf(d.event)| && !Stale(box, d) && d.email
    && forall kind | kind in KindsOf(d.event) :: !Suppressed(d, kind)
  }

  /**
   * Over any sequence of deliveries, of this and of other events and each cut off anywhere, the stored messages of
   * an event are a duplicate-free subset of those it owes.
   */
  lemma {:induction false} NeverMoreThanOwed(box: Outbox, deliveries: seq<Delivery>, event: Event)
    requires Distinct(box.rows) && Unsent(box, event.eventId) && Consistent(deliveries, event)
    ensures Distinct(DeliverAll(box, deliveries).rows) && OnlyOwed(DeliverAll(box, deliveries), event)
  {
    if deliveries != [] {
      var init, d := deliveries[..|deliveries| - 1], deliveries[|deliveries| - 1];
      NeverMoreThanOwed(box, init, event);
      OneMoreDelivery(DeliverAll(box, init), d, event);
    }
  }

  lemma OneMoreDelivery(box: Outbox, d: Delivery, event: Event)
    requires Distinct(box.rows) && OnlyOwed(box, event) && (d.event.eventId == event.eventId ==> d.event == event)
    ensures Distinct(Deliver(box, d).rows) && OnlyOwed(Deliver(box, d), event)
  {
    DeliverFrame(box, d);
    KeysOfKinds(d.event);
    forall kind | KeyOf(event.eventId, kind) in Deliver(box, d).rows ensures kind in KindsOf(event) {
      if KeyOf(event.eventId, kind) !in box.rows {
        var i :| 0 <= i < |KindsOf(d.event)| && KeyOf(event.eventId, kind) == KeyOf(d.event.eventId, KindsOf(d.event)[i]);
        KeysAreInjective(event.eventId, kind, d.event.eventId, KindsOf(d.event)[i]);
      }
    }
  }

  /**
   * After one complete delivery the stored messages of the event are exactly those it owes, each once, and they
   * stay so: whatever is delivered later, of any event, adds no message of this one.
   */
  lemma {:induction false} ExactlyOnce(box: Outbox, before: seq<Delivery>, d: Delivery, later: seq<Delivery>)
    requires Distinct(box.rows) && Unsent(box, d.event.eventId)
    requires Consistent(before, d.event) && Consistent(later, d.event)
    requires Complete(DeliverAll(box, before), d)
    ensures var after := DeliverAll(Deliver(DeliverAll(box, before), d), later);
            Distinct(after.rows) && ExactlyOwed(after, d.event)
  {
    var mid := DeliverAll(box, before);
    NeverMoreThanOwed(box, before, d.event);
    CompleteIsExact(mid, d);
    ExactStays(Deliver(mid, d), d.event, later);
  }

  lemma CompleteIsExact(box: Outbox, d: Delivery)
    requires Distinct(box.rows) && OnlyOwed(box, d.event) && Complete(box, d)
    ensures Distinct(Deliver(box, d).rows) && ExactlyOwed(Deliver(box, d), d.event)
  {
    OneMoreDelivery(box, d, d.event);
    forall kind | kind in KindsOf(d.event) ensures KeyOf(d.event.eventId, kind) in Deliver(box, d).rows {
      var i :| 0 <= i < |KindsOf(d.event)| && KindsOf(d.event)[i] == kind;
      DeliverWritesExactly(box, d, i);
    }
  }

  lemma {:induction false} ExactStays(box: Outbox, event: Event, later: seq<Delivery>)
    requires Distinct(box.rows) && ExactlyOwed(box, event) && Consistent(later, event)
    ensures Distinct(DeliverAll(box, later).rows) && ExactlyOwed(DeliverAll(box, later), event)
  {
    if later != [] {
      var init, d := later[..|later| - 1], later[|later| - 1];
      ExactStays(box, event, init);
      OneMoreDelivery(DeliverAll(box, init), d, event);
      DeliverFrame(DeliverAll(box, init), d);
    }
  }

  /**
   * Which messages preferences hold back: never the identification nor the payment failure notice; a payment only when
   * lifecycle messages are off; any other also while a cancellation runs, unless its event is one of the allowed.
   */
  lemma SuppressedIs(d: Delivery, kind: Kind)
    requires kind in KindsOf(d.event)
    ensures Suppressed(d, kind) <==>
      match kind
      case Identify => false
      case PaymentFailed => false
      case Payment => !d.lifecycle
      case _ =>
        !d.lifecycle
        || (d.cancelling
            && d.event.providerEventType !in {"cancellation_scheduled", "subscription.active", "payment_failed", "payment_succeeded"})
  {
  }

  /** The messages of each kind of event, by their keys: after an undisturbed delivery these are stored, and no others added. */
  lemma DeliveryStores(box: Outbox, d: Delivery)
    requires Distinct(box.rows) && Complete(box, d)
    ensures var after, id := Deliver(box, d).rows, d.event.eventId;
            var owed :=
              match d.event
              case SubscriptionChanged(_, _) => {"billing:" + id + ":identify", "billing:" + id + ":subscription"}
              case AddonSubscriptionChanged(_, _) => {"billing:" + id + ":addon"}
              case UnrecognizedSubscriptionChanged(_, _) => {"billing:" + id + ":unrecognized"}
              case TransactionChanged(_, eventType) =>
                {"billing:" + id + ":payment"} + (if eventType == "payment.failed" then {"payment-failed:" + id} else {});
            forall k :: k in after <==> k in box.rows || k in owed
  {
    DeliverFrame(box, d);
    KeysOfKinds(d.event);
    forall i | 0 <= i < |KindsOf(d.event)| ensures BillingOutboxKeys(d.event)[i] in Deliver(box, d).rows {
      DeliverWritesExactly(box, d, i);
    }
    hide Deliver, Complete;
    var keys := BillingOutboxKeys(d.event);
    assert forall k :: k in keys <==> exists i | 0 <= i < |keys| :: keys[i] == k;
  }

  /** An event id is claimed by the first delivery of it that gets anywhere. */
  lemma {:induction false} ClaimedIff(box: Outbox, deliveries: seq<Delivery>, id: string)
    ensures id in DeliverAll(box, deliveries).claimed <==>
      id in box.claimed || exists j | 0 <= j < |deliveries| :: deliveries[j].event.eventId == id && deliveries[j].cut > 0
  {
    if deliveries != [] {
      var n := |deliveries| - 1;
      ClaimedIff(box, deliveries[..n], id);
      assert deliveries[..n] + [deliveries[n]] == deliveries;
      DeliverClaims(DeliverAll(box, deliveries[..n]), deliveries[n]);
    }
  }

  lemma DeliverClaims(box: Outbox, d: Delivery)
    ensures Deliver(box, d).claimed == box.claimed + if d.cut == 0 then {} else {d.event.eventId}
  {
  }

  /** The j-th delivery is dropped as outdated: it is the first of its event to get anywhere, and judged outdated. */
  predicate DroppedAsStale(box: Outbox, deliveries: seq<Delivery>, j: int)
    requires 0 <= j < |deliveries|
  {
    var d := deliveries[j];
    && d.outdated && (d.event.SubscriptionChanged? || d.event.AddonSubscriptionChanged?)
    && d.event.eventId !in box.claimed
    && forall k | 0 <= k < j :: deliveries[k].event.eventId == d.event.eventId ==> deliveries[k].cut == 0
  }

  lemma DroppedIsStale(box: Outbox, deliveries: seq<Delivery>, j: nat)
    requires j < |deliveries|
    ensures DroppedAsStale(box, deliveries, j) <==> Stale(DeliverAll(box, deliveries[..j]), deliveries[j])
  {
    var id := deliveries[j].event.eventId;
    ClaimedIff(box, deliveries[..j], id);
    assert forall k | 0 <= k < j :: deliveries[..j][k] == deliveries[k];
  }

  /** The j-th delivery gets to write the i-th message of the event. */
  predicate Writes(box: Outbox, deliveries: seq<Delivery>, j: int, event: Event, i: nat)
    requires 0 <= j < |deliveries| && i < |KindsOf(event)|
  {
    var d := deliveries[j];
    && d.event == event && d.cut >= i + 2 && d.email && !Suppressed(d, KindsOf(event)[i])
    && !DroppedAsStale(box, deliveries, j)
  }

  /**
   * Exactly which messages exist after any sequence of deliveries, of this and of other events: the i-th message of
   * an event is stored if and only if some delivery of it survives to that write, knows the address, does not suppress
   * the message, and is not the one that claims the event as outdated.
   */
  lemma {:induction false} MessageStoredIff(box: Outbox, deliveries: seq<Delivery>, event: Event, i: nat)
    requires Distinct(box.rows) && Unsent(box, event.eventId) && Consistent(deliveries, event) && i < |KindsOf(event)|
    ensures KeyOf(event.eventId, KindsOf(event)[i]) in DeliverAll(box, deliveries).rows <==>
      exists j | 0 <= j < |deliveries| :: Writes(box, deliveries, j, event, i)
  {
    hide Writes, Deliver, KeyOf, KindsOf, Distinct, Unsent, OnlyOwed;
    if deliveries == [] {
      NothingSent(box, event, i);
    } else {
      var n := |deliveries| - 1;
      MessageStoredIff(box, deliveries[..n], event, i);
      NeverMoreThanOwed(box, deliveries[..n], event);
      LastWrites(box, deliveries, event, i);
      SomeWrites(box, deliveries, event, i);
    }
  }

  lemma NothingSent(box: Outbox, event: Event, i: nat)
    requires Unsent(box, event.eventId) && i < |KindsOf(event)|
    ensures KeyOf(event.eventId, KindsOf(event)[i]) !in box.rows
  {
  }

  lemma LastWrites(box: Outbox, deliveries: seq<Delivery>, event: Event, i: nat)
    requires deliveries != [] && Consistent(deliveries, event) && i < |KindsOf(event)|
    requires Distinct(DeliverAll(box, deliveries[..|deliveries| - 1]).rows)
    ensures var key := KeyOf(event.eventId, KindsOf(event)[i]);
            key in DeliverAll(box, deliveries).rows <==>
              key in DeliverAll(box, deliveries[..|deliveries| - 1]).rows
              || Writes(box, deliveries, |deliveries| - 1, event, i)
  {
    hide Deliver, DroppedAsStale, Stale, KeyOf, KindsOf;
    var n := |deliveries| - 1;
    DroppedIsStale(box, deliveries, n);
    OneDeliveryWrites(DeliverAll(box, deliveries[..n]), deliveries[n], event, i);
  }

  lemma SomeWrites(box: Outbox, deliveries: seq<Delivery>, event: Event, i: nat)
    requires deliveries != [] && i < |KindsOf(event)|
    ensures var n := |deliveries| - 1;
            (exists j | 0 <= j <= n :: Writes(box, deliveries, j, event, i)) <==>
              Writes(box, deliveries, n, event, i) || exists j | 0 <= j < n :: Writes(box, deliveries[..n], j, event, i)
  {
    var n := |deliveries| - 1;
    forall j | 0 <= j < n ensures Writes(box, deliveries[..n], j, event, i) <==> Writes(box, deliveries, j, event, i) {
      WritesReadsThePast(box, deliveries, j, event, i);
    }
    hide Writes;
  }

  lemma WritesReadsThePast(box: Outbox, deliveries: seq<Delivery>, j: nat, event: Event, i: nat)
    requires j < |deliveries| - 1 && i < |KindsOf(event)|
    ensures Writes(box, deliveries[..|deliveries| - 1], j, event, i) <==> Writes(box, deliveries, j, event, i)
  {
    var init := deliveries[..|deliveries| - 1];
    assert forall k | 0 <= k <= j :: init[k] == deliveries[k];
  }

  /** A delivery of any event stores the i-th message of this one exactly if it is a delivery of this event that can. */
  lemma OneDeliveryWrites(box: Outbox, d: Delivery, event: Event, i: nat)
    requires Distinct(box.rows) && (d.event.eventId == event.eventId ==> d.event == event) && i < |KindsOf(event)|
    ensures var key := KeyOf(event.eventId, KindsOf(event)[i]);
            key in Deliver(box, d).rows <==>
              key in box.rows
              || (d.event == event && d.cut >= i + 2 && d.email && !Suppressed(d, KindsOf(event)[i]) && !Stale(box, d))
  {
    if d.event == event {
      DeliverWritesExactly(box, d, i);
    } else {
      DeliverFrame(box, d);
      KeysOfKinds(d.event);
      forall kind | kind in KindsOf(d.event) ensures KeyOf(d.event.eventId, kind) != KeyOf(event.eventId, KindsOf(event)[i]) {
        if KeyOf(d.event.eventId, kind) == KeyOf(event.eventId, KindsOf(event)[i]) {
          KeysAreInjective(d.event.eventId, kind, event.eventId, KindsOf(event)[i]);
        }
      }
    }
  }

  /** Only subscription and add-on events can be dropped as outdated, and only by the delivery that claims them. */
  lemma StaleIs(box: Outbox, d: Delivery)
    ensures Stale(box, d) <==>
      match d.event
      case SubscriptionChanged(id, _) => d.outdated && id !in box.claimed
      case AddonSubscriptionChanged(id, _) => d.outdated && id !in box.claimed
      case UnrecognizedSubscriptionChanged(_, _) => false
      case TransactionChanged(_, _) => false
  {
  }

  /** A payment message is stored if and only if some delivery survives to it, knows the address and may write. */
  lemma PaymentStoredIff(box: Outbox, deliveries: seq<Delivery>, id: string, eventType: string)
    requires Distinct(box.rows) && Unsent(box, id) && Consistent(deliveries, TransactionChanged(id, eventType))
    ensures "billing:" + id + ":payment" in DeliverAll(box, deliveries).rows <==>
      exists j | 0 <= j < |deliveries| ::
        var d := deliveries[j];
        d.event == TransactionChanged(id, eventType) && d.cut >= 2 && d.email && d.lifecycle
  {
    var event := TransactionChanged(id, eventType);
    MessageStoredIff(box, deliveries, event, 0);
    KeysOfKinds(event);
    forall j | 0 <= j < |deliveries|
      ensures Writes(box, deliveries, j, event, 0) <==>
        deliveries[j].event == event && deliveries[j].cut >= 2 && deliveries[j].email && deliveries[j].lifecycle
    {
      if deliveries[j].event == event {
        SuppressedIs(deliveries[j], Payment);
        DroppedIsStale(box, deliveries, j);
        StaleIs(DeliverAll(box, deliveries[..j]), deliveries[j]);
      }
    }
    hide Writes, DeliverAll;
  }

  /** Redelivering an event whose messages are all stored changes nothing at all. */
  lemma RedeliveryIsSilent(box: Outbox, d: Delivery)
    requires Distinct(box.rows) && ExactlyOwed(box, d.event) && d.event.eventId in box.claimed
    ensures Deliver(box, d) == box
  {
    AlreadyDeliveredIff(box, d.event);
  }

  /**
   * Staleness is judged once. The first delivery of an outdated event claims it and sends nothing; the claim makes
   * every later delivery count as not stale, so the next complete one sends all messages of the outdated event.
   */
  lemma OutdatedEventSpeaksOnReplay(box: Outbox, first: Delivery, again: Delivery)
    requires Distinct(box.rows) && Unsent(box, first.event.eventId)
    requires Stale(box, first) && first.cut > 0
    requires again.event == first.event && again.email && again.cut >= 1 + |KindsOf(again.event)|
    requires forall kind | kind in KindsOf(again.event) :: !Suppressed(again, kind)
    ensures Deliver(box, first).rows == box.rows
    ensures ExactlyOwed(Deliver(Deliver(box, first), again), first.event)
  {
    CompleteIsExact(Deliver(box, first), again);
  }

  /** The sink as the code runs it: early exits on stored state, then keyed writes in sequence. */
  class Sink {
    var claimed: set<string>
    var rows: seq<string>

    function Box(): Outbox
      reads this
    {
      Outbox(claimed, rows)
    }

    /** Insert-if-absent: `deliveryExists`, then the insert on the unique key (messaging.ts). */
    method Store(key: string)
      modifies this`rows
      ensures rows == Write(old(rows), key)
    {
      if key in rows {
        return;
      }
      rows := rows + [key];
    }

    method CountExisting(k0: string, k1: string) returns (count: nat)
      ensures count == Count(rows, k0, k1)
    {
      count := 0;
      for i := 0 to |rows|
        invariant count == Count(rows[..i], k0, k1)
      {
        assert rows[..i + 1][..i] == rows[..i];
        if rows[i] == k0 || rows[i] == k1 {
          count := count + 1;
        }
      }
      assert rows[..|rows|] == rows;
    }

    /** The claim of billing-webhooks.ts:46-54: applied at most once per event id. */
    method Apply(d: Delivery) returns (applied: bool, stale: bool)
      modifies this`claimed
      ensures claimed == old(claimed) + {d.event.eventId}
      ensures stale == Stale(old(Box()), d)
      ensures applied <==> d.event.eventId !in old(claimed) && !stale
    {
      if d.event.eventId in claimed {
        return false, false;
      }
      claimed := claimed + {d.event.eventId};
      stale := d.outdated && (d.event.SubscriptionChanged? || d.event.AddonSubscriptionChanged?);
      applied := !stale;
    }

    /** Lines 673-800. */
    method Process(d: Delivery)
      modifies this`claimed, this`rows
      ensures Box() == Deliver(old(Box()), d)
    {
      if d.cut == 0 {
        return;
      }
      var applied, stale := Apply(d);
      if stale {
        return;
      }
      if !applied {
        var keys := BillingOutboxKeys(d.event);
        var existing := CountExisting(keys[0], SecondKey(keys));
        if existing == |keys| {
          return;
        }
      }
      if !d.email {
        return;
      }
      var kinds := Reached(d);
      ghost var start := rows;
      for i := 0 to |kinds|
        invariant claimed == old(claimed) + {d.event.eventId}
        invariant WriteKinds(start, d, kinds) == WriteKinds(rows, d, kinds[i..])
      {
        assert kinds[i..][1..] == kinds[i + 1..];
        if !Suppressed(d, kinds[i]) {
          Store(KeyOf(d.event.eventId, kinds[i]));
        }
      }
      assert kinds[|kinds|..] == [];
    }
  }
}
