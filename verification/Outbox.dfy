/** Desktop messages on their way to the phone: an original is saved before it is sent and stays until its
    consumption receipt is committed together with its removal. */
module Outbox {
  import opened Option
  import opened JsMap
  import opened Status
  import opened Types
  import opened Store
  import opened Reconcile
  import opened Mirror
  import opened Closing
  import opened Coordinator
  import opened Actions
  import opened Authority
  import opened Endings
  import C = Create
  import G = Gate

  /** A message and its recipient. */
  datatype Address = Address(sourceId: Option<string>, kind: ChatKind, phoneDeviceId: string, desktopDeviceId: string)

  predicate Addressed(item: PendingItem, a: Address) {
    && item.sourceId == a.sourceId && item.sourceKind == Some(a.kind)
    && item.phoneDeviceId == Some(a.phoneDeviceId) && item.desktopDeviceId == Some(a.desktopDeviceId)
  }

  function AddressOf(r: Receipt): Address {
    Address(r.chatMessageId.Or(r.attachId), if Truthy(r.chatMessageId) then Message else ContextAttach, r.phoneDeviceId, r.desktopDeviceId)
  }

  predicate SameSource(r: Receipt, q: Receipt) {
    r.phoneDeviceId == q.phoneDeviceId && r.desktopDeviceId == q.desktopDeviceId && r.chatMessageId == q.chatMessageId && r.attachId == q.attachId
  }

  /** The two lists that must agree. */
  datatype Mail = Mail(receipts: seq<Receipt>, items: seq<PendingItem>)

  datatype Reason = PendingEmpty | PendingAffairRequired | SaveThrew | ReceiptInvalid | ReceiptSourceInvalid | ReceiptRequestConflict
    | ReceiptMessageUnknown | ReceiptCommitFailed
  datatype Answer = Accepted | Repeated | NotAccepted(reason: Reason)

  // ----- one message in, one receipt in -----

  function Enqueue(m: Mail, item: PendingItem, toAffair: bool, saved: bool): (Mail, Answer) {
    if Blank(item.text) then (m, NotAccepted(PendingEmpty))
    else if toAffair && !Truthy(item.affairId) then (m, NotAccepted(PendingAffairRequired))
    else if !saved then (m, NotAccepted(SaveThrew))
    else (m.(items := m.items + [item]), Accepted)
  }

  function FirstFor(items: seq<PendingItem>, a: Address): (r: Option<PendingItem>)
    ensures r.Some? ==> r.value in items && Addressed(r.value, a)
    ensures r.None? <==> forall i :: 0 <= i < |items| ==> !Addressed(items[i], a)
  {
    if items == [] then None else if Addressed(items[0], a) then Some(items[0]) else FirstFor(items[1..], a)
  }

  function WithoutItem(items: seq<PendingItem>, pendingId: string): (r: seq<PendingItem>)
    ensures forall x :: x in r <==> x in items && x.pendingId != pendingId
  {
    if items == [] then []
    else (if items[0].pendingId == pendingId then [] else [items[0]]) + WithoutItem(items[1..], pendingId)
  }

  predicate Conflicts(receipts: seq<Receipt>, receipt: Receipt) {
    exists r :: r in receipts && r.receiptMessageId == receipt.receiptMessageId && !SameSource(r, receipt)
  }

  predicate Consumed(receipts: seq<Receipt>, receipt: Receipt) {
    exists r :: r in receipts && SameSource(r, receipt)
  }

  /** `applyMessageReceipt`, with the commit that a failing save undoes. */
  function Receive(m: Mail, receipt: Receipt, valid: bool, fromPhone: bool, saved: bool): (Mail, Answer) {
    if !valid then (m, NotAccepted(ReceiptInvalid))
    else if !fromPhone then (m, NotAccepted(ReceiptSourceInvalid))
    else if Conflicts(m.receipts, receipt) then (m, NotAccepted(ReceiptRequestConflict))
    else if Consumed(m.receipts, receipt) then (m, Repeated)
    else
      var item := FirstFor(m.items, AddressOf(receipt));
      if item.None? then (m, NotAccepted(ReceiptMessageUnknown))
      else if !saved then (m, NotAccepted(ReceiptCommitFailed))
      else (Mail(m.receipts + [receipt], WithoutItem(m.items, item.value.pendingId)), Accepted)
  }

  // ----- the same, on the objects -----

  class PendingContextQueue {
    const state: CompanionState
    const file: MirrorFile

    function Value(): Mail
      reads this, state, file
    {
      Mail(state.receipts, file.pending)
    }

    constructor (state: CompanionState, file: MirrorFile)
      ensures this.state == state && this.file == file
    {
      this.state, this.file := state, file;
    }

    method Persist(saved: bool)
      modifies file`disk
      ensures file.disk == if saved then Snapshot(state.Value(), file.pending) else old(file.disk)
    {
      if saved {
        file.disk := Snapshot(state.Value(), file.pending);
      }
    }

    /** `#replace`: a save that throws puts the previous items back. */
    method Replace(next: seq<PendingItem>, saved: bool)
      modifies file
      ensures file.pending == if saved then next else old(file.pending)
      ensures file.disk == if saved then Snapshot(state.Value(), next) else old(file.disk)
    {
      var previous := file.pending;
      file.pending := next;
      Persist(saved);
      if !saved {
        file.pending := previous;
      }
    }

    method EnqueueItem(item: PendingItem, toAffair: bool, saved: bool) returns (answer: Answer)
      modifies file
      ensures (Value(), answer) == Enqueue(old(Value()), item, toAffair, saved)
      ensures file.disk == if answer.Accepted? then Snapshot(state.Value(), file.pending) else old(file.disk)
    {
      if Blank(item.text) {
        return NotAccepted(PendingEmpty);
      }
      if toAffair && !Truthy(item.affairId) {
        return NotAccepted(PendingAffairRequired);
      }
      Replace(file.pending + [item], saved);
      return if saved then Accepted else NotAccepted(SaveThrew);
    }

    method ApplyMessageReceipt(receipt: Receipt, valid: bool, fromPhone: bool, saved: bool) returns (answer: Answer)
      modifies file, state`receipts
      ensures (Value(), answer) == Receive(old(Value()), receipt, valid, fromPhone, saved)
      ensures file.disk == if answer.Accepted? then Snapshot(state.Value(), file.pending) else old(file.disk)
    {
      if !valid {
        return NotAccepted(ReceiptInvalid);
      }
      if !fromPhone {
        return NotAccepted(ReceiptSourceInvalid);
      }
      if Conflicts(state.receipts, receipt) {
        return NotAccepted(ReceiptRequestConflict);
      }
      if Consumed(state.receipts, receipt) {
        return Repeated;
      }
      var previous := file.pending;
      var item := FirstFor(previous, AddressOf(receipt));
      if item.None? {
        return NotAccepted(ReceiptMessageUnknown);
      }
      var before := state.receipts;
      state.receipts := state.receipts + [receipt];
      file.pending := WithoutItem(previous, item.value.pendingId);
      Persist(saved);
      if !saved {
        state.receipts := before;
        file.pending := previous;
        return NotAccepted(ReceiptCommitFailed);
      }
      return Accepted;
    }
  }

  // ----- conservation -----

  datatype MailStep =
    | Queue(item: PendingItem, toAffair: bool, saved: bool)
    | Consume(receipt: Receipt, valid: bool, fromPhone: bool, saved: bool)

  function MailNext(m: Mail, st: MailStep): (Mail, Answer) {
    match st
    case Queue(item, toAffair, saved) => Enqueue(m, item, toAffair, saved)
    case Consume(receipt, valid, fromPhone, saved) => Receive(m, receipt, valid, fromPhone, saved)
  }

  predicate InQueue(m: Mail, a: Address) {
    exists i :: 0 <= i < |m.items| && Addressed(m.items[i], a)
  }

  predicate HasReceipt(m: Mail, a: Address) {
    exists r :: r in m.receipts && AddressOf(r) == a
  }

  /** Message ids and local ids are fresh when they are generated. */
  predicate FreshItem(m: Mail, item: PendingItem) {
    && item.sourceKind.Some? && item.phoneDeviceId.Some? && item.desktopDeviceId.Some?
    && (forall i :: 0 <= i < |m.items| ==> m.items[i].pendingId != item.pendingId)
    && (var a := Address(item.sourceId, item.sourceKind.value, item.phoneDeviceId.value, item.desktopDeviceId.value);
        !InQueue(m, a) && !HasReceipt(m, a))
  }

  predicate MailEnabled(m: Mail, st: MailStep) {
    st.Queue? ==> FreshItem(m, st.item)
  }

  /** Waiting messages have their own local ids and their own addresses. */
  predicate Separate(items: seq<PendingItem>) {
    forall i, k :: 0 <= i < k < |items| ==> items[i].pendingId != items[k].pendingId && !SameAddress(items[i], items[k])
  }

  predicate SameAddress(x: PendingItem, y: PendingItem) {
    && x.sourceKind.Some? && x.phoneDeviceId.Some? && x.desktopDeviceId.Some?
    && x.sourceId == y.sourceId && x.sourceKind == y.sourceKind && x.phoneDeviceId == y.phoneDeviceId && x.desktopDeviceId == y.desktopDeviceId
  }

  /** Nothing that waits has been consumed. */
  ghost predicate Conserved(m: Mail) {
    Separate(m.items) && forall a :: !(InQueue(m, a) && HasReceipt(m, a))
  }

  lemma {:induction false} WithoutItemIsSeparate(items: seq<PendingItem>, id: string)
    requires Separate(items)
    ensures Separate(WithoutItem(items, id))
  {
    if items != [] {
      WithoutItemIsSeparate(items[1..], id);
      forall y | y in WithoutItem(items[1..], id) ensures items[0].pendingId != y.pendingId && !SameAddress(items[0], y) {
        var k :| 0 <= k < |items[1..]| && items[1..][k] == y;
        assert items[k + 1] == y;
      }
    }
  }

  lemma InQueueMeans(m: Mail, a: Address)
    ensures InQueue(m, a) <==> exists x :: x in m.items && Addressed(x, a)
  {
    if InQueue(m, a) {
      var i :| 0 <= i < |m.items| && Addressed(m.items[i], a);
      assert m.items[i] in m.items;
    }
  }

  /** The receipt takes out exactly the message it is for. */
  lemma ReceiptRemovesOnlyItsMessage(m: Mail, item: PendingItem, a: Address, b: Address)
    requires Separate(m.items) && item in m.items && Addressed(item, a)
    ensures var m' := Mail(m.receipts, WithoutItem(m.items, item.pendingId));
      !InQueue(m', a) && (b != a ==> (InQueue(m', b) <==> InQueue(m, b)))
  {
  }

  lemma QueueKeepsConserved(m: Mail, item: PendingItem)
    requires Conserved(m) && FreshItem(m, item)
    ensures Conserved(m.(items := m.items + [item]))
  {
    var m' := m.(items := m.items + [item]);
    var a := Address(item.sourceId, item.sourceKind.value, item.phoneDeviceId.value, item.desktopDeviceId.value);
    forall i | 0 <= i < |m.items| ensures !SameAddress(m.items[i], item) {
      assert !Addressed(m.items[i], a);
    }
    forall b ensures !(InQueue(m', b) && HasReceipt(m', b)) {
      InQueueMeans(m, b);
      InQueueMeans(m', b);
    }
  }

  lemma ConsumeKeepsConserved(m: Mail, item: PendingItem, receipt: Receipt)
    requires Conserved(m) && item in m.items && Addressed(item, AddressOf(receipt))
    ensures Conserved(Mail(m.receipts + [receipt], WithoutItem(m.items, item.pendingId)))
  {
    var m' := Mail(m.receipts + [receipt], WithoutItem(m.items, item.pendingId));
    WithoutItemIsSeparate(m.items, item.pendingId);
    forall b ensures !(InQueue(m', b) && HasReceipt(m', b)) {
      ReceiptRemovesOnlyItsMessage(m, item, AddressOf(receipt), b);
      assert InQueue(m', b) <==> InQueue(Mail(m.receipts, WithoutItem(m.items, item.pendingId)), b);
    }
  }

  lemma MailStepKeepsConserved(m: Mail, st: MailStep)
    requires Conserved(m) && MailEnabled(m, st)
    ensures Conserved(MailNext(m, st).0)
  {
    hide Conserved, FreshItem, Conflicts, Consumed;
    if MailNext(m, st).0 != m {
      match st {
        case Queue(item, toAffair, saved) => QueueKeepsConserved(m, item);
        case Consume(receipt, valid, fromPhone, saved) =>
          ConsumeKeepsConserved(m, FirstFor(m.items, AddressOf(receipt)).value, receipt);
      }
    }
  }

  /** No message is lost: one that waits goes on waiting, until its own receipt takes its place; a receipt stays. */
  lemma MailStepLosesNothing(m: Mail, st: MailStep, a: Address)
    requires Conserved(m) && MailEnabled(m, st)
    ensures HasReceipt(m, a) ==> HasReceipt(MailNext(m, st).0, a)
    ensures InQueue(m, a) ==> InQueue(MailNext(m, st).0, a) || HasReceipt(MailNext(m, st).0, a)
  {
    hide FreshItem, Conflicts, Consumed;
    var m' := MailNext(m, st).0;
    if m' != m {
      InQueueMeans(m, a);
      InQueueMeans(m', a);
      if st.Consume? {
        var item := FirstFor(m.items, AddressOf(st.receipt)).value;
        ReceiptRemovesOnlyItsMessage(m, item, AddressOf(st.receipt), a);
        assert st.receipt in m'.receipts;
        InQueueMeans(Mail(m.receipts, WithoutItem(m.items, item.pendingId)), a);
      }
    }
  }

  /** A refused, repeated or unsaved message or receipt leaves both lists as they were, and an accepted one was saved. */
  lemma OnlyAcceptedChanges(m: Mail, st: MailStep)
    ensures MailNext(m, st).1 != Accepted ==> MailNext(m, st).0 == m
    ensures MailNext(m, st).1 == Accepted ==> st.saved && MailNext(m, st).0 != m
  {
  }

  // ----- which receipts are taken -----

  /** The two receipts speak of the same message and parties; only their own ids may differ. */
  predicate AlikeButForId(r: Receipt, q: Receipt) {
    r.(receiptMessageId := q.receiptMessageId) == q
  }

  predicate IdIsTaken(m: Mail, receipt: Receipt) {
    exists i :: 0 <= i < |m.receipts| && m.receipts[i].receiptMessageId == receipt.receiptMessageId && m.receipts[i] != receipt
  }

  predicate IsRecorded(m: Mail, receipt: Receipt) {
    exists i :: 0 <= i < |m.receipts| && AlikeButForId(m.receipts[i], receipt)
  }

  /** The item carries the message that the receipt names, a chat message before an attachment, between the same parties. */
  predicate NamedBy(item: PendingItem, receipt: Receipt) {
    && item.sourceId == (if receipt.chatMessageId.Some? then receipt.chatMessageId else receipt.attachId)
    && item.sourceKind == Some(if receipt.chatMessageId.Some? && receipt.chatMessageId.value != "" then Message else ContextAttach)
    && item.phoneDeviceId == Some(receipt.phoneDeviceId) && item.desktopDeviceId == Some(receipt.desktopDeviceId)
  }

  predicate MessageWaits(m: Mail, receipt: Receipt) {
    exists i :: 0 <= i < |m.items| && NamedBy(m.items[i], receipt)
  }

  lemma SameGuards(m: Mail, receipt: Receipt)
    ensures Conflicts(m.receipts, receipt) <==> IdIsTaken(m, receipt)
    ensures Consumed(m.receipts, receipt) <==> IsRecorded(m, receipt)
    ensures FirstFor(m.items, AddressOf(receipt)).Some? <==> MessageWaits(m, receipt)
  {
    forall i | 0 <= i < |m.receipts| ensures AlikeButForId(m.receipts[i], receipt) <==> SameSource(m.receipts[i], receipt) {
    }
    forall i | 0 <= i < |m.items| ensures NamedBy(m.items[i], receipt) <==> Addressed(m.items[i], AddressOf(receipt)) {
    }
  }

  /** Exactly which receipts are accepted, repeated and refused, and for which reason. */
  lemma ReceiptAnsweredExactly(m: Mail, receipt: Receipt, valid: bool, fromPhone: bool, saved: bool)
    ensures var (m', answer) := Receive(m, receipt, valid, fromPhone, saved);
      && (answer == Accepted <==>
            valid && fromPhone && !IdIsTaken(m, receipt) && !IsRecorded(m, receipt) && MessageWaits(m, receipt) && saved)
      && (answer == Repeated <==> valid && fromPhone && !IdIsTaken(m, receipt) && IsRecorded(m, receipt))
      && (answer == NotAccepted(ReceiptInvalid) <==> !valid)
      && (answer == NotAccepted(ReceiptSourceInvalid) <==> valid && !fromPhone)
      && (answer == NotAccepted(ReceiptRequestConflict) <==> valid && fromPhone && IdIsTaken(m, receipt))
      && (answer == NotAccepted(ReceiptMessageUnknown) <==>
            valid && fromPhone && !IdIsTaken(m, receipt) && !IsRecorded(m, receipt) && !MessageWaits(m, receipt))
      && (answer == NotAccepted(ReceiptCommitFailed) <==>
            valid && fromPhone && !IdIsTaken(m, receipt) && !IsRecorded(m, receipt) && MessageWaits(m, receipt) && !saved)
      && (answer != Accepted ==> m' == m)
  {
    SameGuards(m, receipt);
  }

  lemma {:induction false} WithoutOne(before: seq<PendingItem>, item: PendingItem, after: seq<PendingItem>)
    requires forall x :: x in before || x in after ==> x.pendingId != item.pendingId
    ensures WithoutItem(before + [item] + after, item.pendingId) == before + after
  {
    var all := before + [item] + after;
    if before == [] {
      assert all[0] == item && all[1..] == after;
      WithoutNone(after, item.pendingId);
    } else {
      assert all[0] == before[0] && all[1..] == before[1..] + [item] + after;
      WithoutOne(before[1..], item, after);
      assert [before[0]] + (before[1..] + after) == before + after;
    }
  }

  lemma {:induction false} WithoutNone(items: seq<PendingItem>, id: string)
    requires forall i :: 0 <= i < |items| ==> items[i].pendingId != id
    ensures WithoutItem(items, id) == items
  {
    if items != [] {
      WithoutNone(items[1..], id);
    }
  }

  /** While a message waits in a state that any run can reach, its receipt is accepted exactly if it is valid, comes from
      the phone, its id was not used for another message, and the save succeeds. Then just this message leaves the queue,
      the receipt is on record, and the same receipt, whether or not a save would succeed, is from then on a repetition
      that changes nothing. */
  lemma WaitingMessageIsConsumedExactly(m: Mail, receipt: Receipt, valid: bool, fromPhone: bool, saved: bool, i: nat)
    requires Conserved(m) && i < |m.items| && NamedBy(m.items[i], receipt)
    ensures var (m', answer) := Receive(m, receipt, valid, fromPhone, saved);
      && (answer == Accepted <==> valid && fromPhone && !IdIsTaken(m, receipt) && saved)
      && (answer == Accepted ==>
            && m' == Mail(m.receipts + [receipt], m.items[..i] + m.items[i + 1..])
            && !MessageWaits(m', receipt)
            && forall again :: Receive(m', receipt, valid, fromPhone, again) == (m', Repeated))
  {
    hide Receive, Conserved, NamedBy, MessageWaits, IsRecorded, IdIsTaken;
    var (m', answer) := Receive(m, receipt, valid, fromPhone, saved);
    ReceiptAnsweredExactly(m, receipt, valid, fromPhone, saved);
    NotYetRecorded(m, receipt, i);
    if answer == Accepted {
      AcceptedLeaves(m, receipt, valid, fromPhone, saved, i);
      NoneLeft(m, receipt, i);
      RecordedNow(m.receipts, m'.items, receipt);
      IdNowRecorded(m, receipt, m'.items);
      forall again ensures Receive(m', receipt, valid, fromPhone, again) == (m', Repeated) {
        ReceiptAnsweredExactly(m', receipt, valid, fromPhone, again);
      }
    }
  }

  lemma AcceptedLeaves(m: Mail, receipt: Receipt, valid: bool, fromPhone: bool, saved: bool, i: nat)
    requires Conserved(m) && i < |m.items| && NamedBy(m.items[i], receipt) && Receive(m, receipt, valid, fromPhone, saved).1 == Accepted
    ensures Separate(m.items) && Receive(m, receipt, valid, fromPhone, saved).0 == Mail(m.receipts + [receipt], m.items[..i] + m.items[i + 1..])
  {
    OnlyOneNamed(m, receipt, i);
    assert m.items == m.items[..i] + [m.items[i]] + m.items[i + 1..];
    WithoutOne(m.items[..i], m.items[i], m.items[i + 1..]);
    hide Conflicts, Consumed, NamedBy, SameAddress, InQueue, HasReceipt, Addressed;
  }

  lemma RecordedMeans(m: Mail, receipt: Receipt)
    ensures IsRecorded(m, receipt) ==> HasReceipt(m, AddressOf(receipt))
  {
    if k :| 0 <= k < |m.receipts| && AlikeButForId(m.receipts[k], receipt) {
      assert m.receipts[k] in m.receipts && AddressOf(m.receipts[k]) == AddressOf(receipt);
    }
  }

  lemma NotYetRecorded(m: Mail, receipt: Receipt, i: nat)
    requires Conserved(m) && i < |m.items| && NamedBy(m.items[i], receipt)
    ensures MessageWaits(m, receipt) && !IsRecorded(m, receipt)
  {
    RecordedMeans(m, receipt);
    assert Addressed(m.items[i], AddressOf(receipt));
    assert InQueue(m, AddressOf(receipt));
  }

  lemma OnlyOneNamed(m: Mail, receipt: Receipt, i: nat)
    requires Conserved(m) && i < |m.items| && NamedBy(m.items[i], receipt)
    ensures FirstFor(m.items, AddressOf(receipt)) == Some(m.items[i])
  {
    var found := FirstFor(m.items, AddressOf(receipt));
    assert Addressed(m.items[i], AddressOf(receipt));
    var k :| 0 <= k < |m.items| && m.items[k] == found.value;
    assert SameAddress(m.items[i], m.items[k]);
  }

  lemma BothNamed(x: PendingItem, y: PendingItem, receipt: Receipt)
    requires NamedBy(x, receipt) && NamedBy(y, receipt)
    ensures SameAddress(x, y)
  {
  }

  lemma NoneLeft(m: Mail, receipt: Receipt, i: nat)
    requires Separate(m.items) && i < |m.items| && NamedBy(m.items[i], receipt)
    ensures !MessageWaits(Mail(m.receipts + [receipt], m.items[..i] + m.items[i + 1..]), receipt)
  {
    forall k | 0 <= k < |m.items| && NamedBy(m.items[k], receipt) ensures k == i {
      BothNamed(m.items[i], m.items[k], receipt);
      BothNamed(m.items[k], m.items[i], receipt);
    }
  }

  lemma RecordedNow(receipts: seq<Receipt>, items: seq<PendingItem>, receipt: Receipt)
    ensures IsRecorded(Mail(receipts + [receipt], items), receipt)
  {
    assert (receipts + [receipt])[|receipts|] == receipt;
  }

  lemma IdNowRecorded(m: Mail, receipt: Receipt, items: seq<PendingItem>)
    requires !IdIsTaken(m, receipt)
    ensures !IdIsTaken(Mail(m.receipts + [receipt], items), receipt)
  {
  }

  // ----- inside the companion's machine -----

  function MailOf(s: System): Mail {
    Mail(s.live.receipts, s.pending)
  }

  /** The file holds the same two lists as memory. */
  predicate FileAgrees(s: System) {
    s.disk.receipts == s.live.receipts && s.disk.pending == s.pending
  }

  /** What a step of the machine does to messages: most do nothing; a change outside affairs and jobs either leaves
      them alone too, or queues one or takes one receipt. */
  predicate MailActs(s: System, st: Step, act: Option<MailStep>) {
    if !st.SOther? then act.None?
    else if act.None? then Mail(st.backend.receipts, st.pending) == MailOf(s)
    else
      && MailEnabled(MailOf(s), act.value) && Mail(st.backend.receipts, st.pending) == MailNext(MailOf(s), act.value).0
      && (MailNext(MailOf(s), act.value).1.Accepted? ==> st.saved)
  }

  lemma {:induction false} EventsKeepReceipts(b: Backend, events: seq<Envelope>, now: int)
    ensures C.ApplyAll(b, events, now).0.receipts == b.receipts
    decreases |events|
  {
    hide Apply;
    if events != [] {
      MessageKeepsReceipts(b, events[0], now);
      EventsKeepReceipts(Apply(b, events[0], now).0, events[1..], now);
    }
  }

  lemma MessageKeepsReceipts(b: Backend, e: Envelope, now: int)
    ensures Apply(b, e, now).0.receipts == b.receipts
  {
    hide ApplyJob, ApplyAffair, FindEntry;
    JobKeepsReceipts(b, e);
    AffairKeepsReceipts(b, e);
  }

  lemma JobKeepsReceipts(b: Backend, e: Envelope)
    ensures e.body.JobEvent? ==> ApplyJob(b, e.body.jobKind, e.body.job).0.receipts == b.receipts
  {
  }

  lemma AffairKeepsReceipts(b: Backend, e: Envelope)
    ensures e.body.AffairEvent? ==> ApplyAffair(b, e.body.affair).0.receipts == b.receipts
  {
  }

  lemma CreateKeepsReceipts(b: Backend, g: G.Gate, command: Envelope, x: C.CreateInput)
    requires command.body.JobEvent?
    ensures C.HandleJobCreate(b, g, command, x).0.receipts == b.receipts
  {
    if command.body.job.affairId in b.affairs.data && x.requested.Some? {
      var draft := C.Draft(b, b.affairs.data[command.body.job.affairId], command.body.job);
      var request := C.RequestFor(command.body.job, x.requested.value, x.newRequestId);
      EventsKeepReceipts(draft, C.EventsFor(command.body.job, request.permissionRequestId, x), x.now);
    }
    hide C.ApplyAll, C.EventsFor, C.PrecheckCreate, G.Enqueue, G.Expire, Validated;
  }

  /** No step of a close, no message, no job creation, no supervision and no decision touches the two lists. */
  lemma OthersLeaveMailAlone(s: System, st: Step)
    requires Enabled(s, st) && !st.SOther? && !st.SRestart?
    ensures MailOf(Next(s, st)) == MailOf(s)
  {
    if st.SDeliver? {
      MessageKeepsReceipts(s.live, st.e, st.now);
    }
    if st.SSupervise? && st.affairId in s.live.affairs.data {
      MessageKeepsReceipts(s.live, Envelope(st.messageId, false, true, AffairEvent(AffairUpdate, Marked(s.live.affairs.data[st.affairId], st.mark))), st.now);
    }
    if st.SRegister? {
      CreateKeepsReceipts(s.live, s.gate, st.createCommand, st.x);
    }
    hide Precheck, IsClosing, Apply, C.HandleJobCreate, RevokeAllOf, JobsOf, Snapshot;
  }

  lemma StepKeepsFileAgreeing(s: System, st: Step, act: Option<MailStep>)
    requires Enabled(s, st) && MailActs(s, st, act) && FileAgrees(s)
    ensures FileAgrees(Next(s, st))
    ensures MailOf(Next(s, st)) == if act.Some? then MailNext(MailOf(s), act.value).0 else MailOf(s)
  {
    hide MailNext, MailEnabled;
    FileAfterStep(s, st);
    if st.SOther? {
      if act.Some? {
        OnlyAcceptedChanges(MailOf(s), act.value);
      }
    } else if !st.SRestart? {
      OthersLeaveMailAlone(s, st);
    }
    hide Precheck, IsClosing, Apply, C.HandleJobCreate, RevokeAllOf, JobsOf, FromList;
    if !st.SOther? && !st.SRestart? {
      hide Next;
    }
  }

  /** A run of the companion, with restarts and failing saves, and what it does to messages. */
  ghost predicate IsMailRun(ss: seq<System>, steps: seq<Step>, acts: seq<Option<MailStep>>) {
    && |ss| == |steps| + 1 == |acts| + 1 && FileAgrees(ss[0]) && Conserved(MailOf(ss[0]))
    && forall i :: 0 <= i < |steps| ==> Enabled(ss[i], steps[i]) && MailActs(ss[i], steps[i], acts[i]) && ss[i + 1] == Next(ss[i], steps[i])
  }

  lemma {:induction false} RunKeepsMail(ss: seq<System>, steps: seq<Step>, acts: seq<Option<MailStep>>, n: nat)
    requires IsMailRun(ss, steps, acts) && n < |ss|
    ensures FileAgrees(ss[n]) && Conserved(MailOf(ss[n]))
  {
    hide Enabled, Next, Conserved, FileAgrees, MailNext, MailEnabled;
    if n > 0 {
      RunKeepsMail(ss, steps, acts, n - 1);
      StepKeepsFileAgreeing(ss[n - 1], steps[n - 1], acts[n - 1]);
      if acts[n - 1].Some? {
        MailStepKeepsConserved(MailOf(ss[n - 1]), acts[n - 1].value);
      }
    }
  }

  lemma NotBoth(m: Mail, a: Address)
    requires Conserved(m)
    ensures !(InQueue(m, a) && HasReceipt(m, a))
  {
  }

  /** Every queued message is, from then on and across restarts and failing saves, either waiting or consumed, and
      never both; once consumed it stays consumed. */
  lemma {:induction false} EveryMessageIsKept(ss: seq<System>, steps: seq<Step>, acts: seq<Option<MailStep>>, a: Address, i: nat, k: nat)
    requires IsMailRun(ss, steps, acts) && i <= k < |ss| && (InQueue(MailOf(ss[i]), a) || HasReceipt(MailOf(ss[i]), a))
    ensures InQueue(MailOf(ss[k]), a) <==> !HasReceipt(MailOf(ss[k]), a)
    ensures HasReceipt(MailOf(ss[i]), a) ==> HasReceipt(MailOf(ss[k]), a)
    decreases k
  {
    hide Enabled, Next, FileAgrees, MailNext, MailEnabled, InQueue, HasReceipt, Conserved;
    RunKeepsMail(ss, steps, acts, k);
    NotBoth(MailOf(ss[k]), a);
    if i < k {
      EveryMessageIsKept(ss, steps, acts, a, i, k - 1);
      RunKeepsMail(ss, steps, acts, k - 1);
      StepKeepsFileAgreeing(ss[k - 1], steps[k - 1], acts[k - 1]);
      if acts[k - 1].Some? {
        MailStepLosesNothing(MailOf(ss[k - 1]), acts[k - 1].value, a);
      }
    }
  }

  // ----- sending again -----

  predicate Sendable(item: PendingItem, phone: string, desktop: string) {
    Truthy(item.sourceId) && item.phoneDeviceId == Some(phone) && item.desktopDeviceId == Some(desktop)
  }

  /** The chat event for a waiting item: the original id and text, however often it is built. What is not a chat message goes as
      an attachment. */
  function ChatOf(item: PendingItem): ChatEntry
    requires item.sourceId.Some?
  {
    ChatEntry(if item.sourceKind == Some(Message) then Message else ContextAttach, item.sourceId.value, item.text, item.affairId, item.rest)
  }

  /** `flushPendingContext`: everything addressed to the present parties, in queue order. */
  function Flushed(items: seq<PendingItem>, phone: string, desktop: string): seq<ChatEntry> {
    if items == [] then []
    else (if Sendable(items[0], phone, desktop) then [ChatOf(items[0])] else []) + Flushed(items[1..], phone, desktop)
  }

  predicate Shows(b: Backend, entry: ChatEntry) {
    var shown := FindEntry(if entry.kind == Message then b.chat else b.attachments, entry.id);
    shown.Some? && shown.value.text == entry.text && shown.value.affairId == entry.affairId
  }

  function ApplyEntries(b: Backend, entries: seq<ChatEntry>): Backend
    decreases |entries|
  {
    if entries == [] then b else ApplyEntries(ApplyChat(b, entries[0]).0, entries[1..])
  }

  lemma {:induction false} FindAfterAppend(entries: seq<ChatEntry>, e: ChatEntry, id: string)
    ensures FindEntry(entries + [e], id) == if FindEntry(entries, id).Some? then FindEntry(entries, id) else if e.id == id then Some(e) else None
  {
    if entries == [] {
      assert entries + [e] == [e];
    } else {
      assert (entries + [e])[1..] == entries[1..] + [e];
      FindAfterAppend(entries[1..], e, id);
    }
  }

  predicate Known(b: Backend, e: ChatEntry) {
    FindEntry(if e.kind == Message then b.chat else b.attachments, e.id).Some?
  }

  /** A chat event only appends: it never replaces a stored text, and a second event with the same id changes
      nothing, whatever it carries. */
  lemma ChatOnlyAppends(b: Backend, e: ChatEntry, other: ChatEntry)
    ensures var b' := ApplyChat(b, e).0;
      && b.chat <= b'.chat && b.attachments <= b'.attachments
      && (Shows(b, other) ==> Shows(b', other)) && (Known(b, other) ==> Known(b', other))
      && Known(b', e) && (ApplyChat(b, e).1.Ok() ==> Shows(b', e))
      && (Known(b, e) ==> b' == b)
  {
    FindAfterAppend(b.chat, e, other.id);
    FindAfterAppend(b.attachments, e, other.id);
    FindAfterAppend(b.chat, e, e.id);
    FindAfterAppend(b.attachments, e, e.id);
    hide FindEntry;
  }

  lemma {:induction false} EntriesKeepShown(b: Backend, entries: seq<ChatEntry>, other: ChatEntry)
    ensures Shows(b, other) ==> Shows(ApplyEntries(b, entries), other)
    ensures Known(b, other) ==> Known(ApplyEntries(b, entries), other)
    decreases |entries|
  {
    hide Shows, Known, ApplyChat;
    if entries != [] {
      ChatOnlyAppends(b, entries[0], other);
      EntriesKeepShown(ApplyChat(b, entries[0]).0, entries[1..], other);
    }
  }

  lemma {:induction false} SentIsKnown(b: Backend, entries: seq<ChatEntry>, e: ChatEntry)
    requires e in entries
    ensures Known(ApplyEntries(b, entries), e)
    decreases |entries|
  {
    hide Shows, Known, ApplyChat;
    var b1 := ApplyChat(b, entries[0]).0;
    if e == entries[0] {
      ChatOnlyAppends(b, e, e);
      EntriesKeepShown(b1, entries[1..], e);
    } else {
      assert entries == [entries[0]] + entries[1..];
      SentIsKnown(b1, entries[1..], e);
    }
  }

  lemma {:induction false} KnownChangesNothing(b: Backend, entries: seq<ChatEntry>)
    requires forall e :: e in entries ==> Known(b, e)
    ensures ApplyEntries(b, entries) == b
    decreases |entries|
  {
    hide Shows, Known, ApplyChat;
    if entries != [] {
      ChatOnlyAppends(b, entries[0], entries[0]);
      KnownChangesNothing(b, entries[1..]);
    }
  }

  lemma {:induction false} FlushedFrom(items: seq<PendingItem>, phone: string, desktop: string, e: ChatEntry)
    ensures e in Flushed(items, phone, desktop) <==> exists x :: x in items && Sendable(x, phone, desktop) && ChatOf(x) == e
  {
    hide Sendable;
    if items != [] {
      FlushedFrom(items[1..], phone, desktop, e);
      assert items == [items[0]] + items[1..];
    }
  }

  /** Flushing again after a reconnect, with the messages that still wait, adds no chat entry and alters none. */
  lemma ResendingChangesNothing(b: Backend, items: seq<PendingItem>, later: seq<PendingItem>, phone: string, desktop: string)
    requires forall x :: x in later ==> x in items
    ensures ApplyEntries(ApplyEntries(b, Flushed(items, phone, desktop)), Flushed(later, phone, desktop)) == ApplyEntries(b, Flushed(items, phone, desktop))
  {
    hide Known, ApplyEntries, Sendable, Flushed;
    forall e | e in Flushed(later, phone, desktop) ensures Known(ApplyEntries(b, Flushed(items, phone, desktop)), e) {
      FlushedFrom(later, phone, desktop, e);
      FlushedFrom(items, phone, desktop, e);
      SentIsKnown(b, Flushed(items, phone, desktop), e);
    }
    KnownChangesNothing(ApplyEntries(b, Flushed(items, phone, desktop)), Flushed(later, phone, desktop));
  }

  /** The chat event that stands for the item between these parties: the original kind, id, text and affair. */
  predicate StandsFor(e: ChatEntry, item: PendingItem, phone: string, desktop: string) {
    && item.phoneDeviceId == Some(phone) && item.desktopDeviceId == Some(desktop)
    && e.kind == (if item.sourceKind == Some(Message) then Message else ContextAttach) && item.sourceId == Some(e.id) && e.id != ""
    && e == ChatEntry(e.kind, e.id, item.text, item.affairId, item.rest)
  }

  /** From queue to phone. A message is taken in exactly if it says something, names its affair if it goes to one, and is
      saved; it then waits last. What a reconnect sends are exactly the waiting messages for the present parties. So a message
      that was taken in is sent on every reconnect of its parties until its receipt is taken, and after that no more. */
  lemma SentWhileWaiting(m: Mail, item: PendingItem, toAffair: bool, saved: bool, phone: string, desktop: string, e: ChatEntry)
    ensures var (m', answer) := Enqueue(m, item, toAffair, saved);
      && (answer == Accepted <==>
            SaysSomething(item.text) && (toAffair ==> item.affairId.Some? && item.affairId.value != "") && saved)
      && m' == (if answer == Accepted then Mail(m.receipts, m.items + [item]) else m)
      && (e in Flushed(m'.items, phone, desktop) <==> exists i :: 0 <= i < |m'.items| && StandsFor(e, m'.items[i], phone, desktop))
  {
    var (m', answer) := Enqueue(m, item, toAffair, saved);
    BlankSaysNothing(item.text);
    FlushedFrom(m'.items, phone, desktop, e);
    forall i | 0 <= i < |m'.items|
      ensures StandsFor(e, m'.items[i], phone, desktop) <==> Sendable(m'.items[i], phone, desktop) && ChatOf(m'.items[i]) == e
    {
    }
    hide Flushed, StandsFor, Sendable;
    if x :| x in m'.items && Sendable(x, phone, desktop) && ChatOf(x) == e {
      var i :| 0 <= i < |m'.items| && m'.items[i] == x;
      assert StandsFor(e, m'.items[i], phone, desktop);
    }
  }

  /** In queue order, each once. */
  lemma {:induction false} FlushedInOrder(items: seq<PendingItem>, more: seq<PendingItem>, phone: string, desktop: string)
    ensures Flushed(items + more, phone, desktop) == Flushed(items, phone, desktop) + Flushed(more, phone, desktop)
    ensures |Flushed(items, phone, desktop)| <= |items|
  {
    hide Sendable;
    if items == [] {
      assert items + more == more;
    } else {
      assert (items + more)[1..] == items[1..] + more;
      FlushedInOrder(items[1..], more, phone, desktop);
    }
  }
}
