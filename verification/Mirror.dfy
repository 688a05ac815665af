/** The mirror file: what of the state is saved, and how a restart refills it. */
module Mirror {
  import opened Option
  import opened JsMap
  import opened Types
  import opened Store

  datatype Mirror = Mirror(
    actions: seq<Record>,
    affairs: seq<Affair>,
    jobs: seq<Job>,
    chat: seq<ChatEntry>,
    attachments: seq<ChatEntry>,
    receipts: seq<Receipt>,
    pending: seq<PendingItem>,
    deliveries: seq<string>)

  function Snapshot(b: Backend, pending: seq<PendingItem>): Mirror {
    Mirror(Values(b.actions), Values(b.affairs), Values(b.jobs), b.chat, b.attachments, b.receipts, pending, b.deliveries)
  }

  function Hydrate(b: Backend, root: Mirror): Backend {
    b.(actions := FromList(root.actions, RecordKey),
       affairs := FromList(root.affairs, AffairKey),
       jobs := FromList(root.jobs, JobKey),
       chat := root.chat,
       attachments := root.attachments,
       receipts := root.receipts,
       deliveries := root.deliveries)
  }

  method Refill<K(!new), V>(values: seq<V>, key: V -> K) returns (m: JsMap<K, V>)
    ensures m == FromList(values, key)
  {
    m := Empty();
    for i := 0 to |values|
      invariant m == FromList(values[..i], key)
    {
      m := Set(m, key(values[i]), values[i]);
      assert values[..i + 1][..i] == values[..i];
    }
    assert values[..|values|] == values;
  }

  method HydrateBackendMirror(state: CompanionState, root: Mirror)
    modifies state
    ensures state.Value() == Hydrate(old(state.Value()), root)
  {
    state.actions := Refill(root.actions, RecordKey);
    state.affairs := Refill(root.affairs, AffairKey);
    state.jobs := Refill(root.jobs, JobKey);
    state.chat := root.chat;
    state.receipts := root.receipts;
    state.attachments := root.attachments;
    state.deliveries := root.deliveries;
  }

  /** Saving and refilling gives back every saved collection, in the same order; what is not saved
      (message ids seen, time stamp, last error) stays what it was. */
  lemma HydrateAfterSnapshot(empty: Backend, b: Backend, pending: seq<PendingItem>)
    requires WellKeyed(b) && WellOrdered(b)
    ensures Hydrate(empty, Snapshot(b, pending)) ==
      b.(seen := empty.seen, updatedAt := empty.updatedAt, lastError := empty.lastError)
  {
    SaveAndRefill(b.actions, RecordKey);
    SaveAndRefill(b.affairs, AffairKey);
    SaveAndRefill(b.jobs, JobKey);
  }

  /** Whatever a mirror holds, a refilled state has every record under its own id, listed once. */
  lemma HydratedIsWellFormed(b: Backend, root: Mirror)
    ensures WellKeyed(Hydrate(b, root)) && WellOrdered(Hydrate(b, root))
  {
    FromListOrdered(root.actions, RecordKey);
    FromListOrdered(root.affairs, AffairKey);
    FromListOrdered(root.jobs, JobKey);
  }
}
