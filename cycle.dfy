/**
 * The rules the two engines of SnapWrap share: SnapWrap/snapchat.py (class Snapchat) and
 * SnapWrap/bot.py (class SnapchatBot) run the same polling cycle, the same login check and
 * the same upload-before-send. What the engines ask of the client and of the user's hooks is
 * recorded as a trace of calls; the client's answers are parameters.
 */
module Cycle {
  import opened Common
  import Client
  import Snaps
  import Utils

  /** Which optional hooks the engine subclass defines (`hasattr(self, ...)`). */
  datatype Hooks = Hooks(onSnap: bool, onFriendAdd: bool, onFriendDelete: bool)

  /**
   * What an engine asks of the client or of a hook. A friend hook records the `added_me`
   * list the engine holds while the hook runs, which is what the hook sees of the engine.
   * SendToStory is the bot client's story request; PostToStory is the polling client's,
   * which also sends the snap's sender as the caption.
   */
  datatype Call =
    | FetchBlob(id: Value)
    | MarkViewed(snapId: Value, sender: Value, replayed: bool)
    | MarkScreenshot(snapId: Value, sender: Value, replayed: bool)
    | MarkViewedById(snapId: Value)
    | OnSnap(sender: Value, snap: Snaps.Snap)
    | OnFriendAdd(name: string, addedMe: seq<string>)
    | OnFriendDelete(name: string, addedMe: seq<string>)
    | Send(mediaId: Value, recipients: string, duration: Value)
    | SendToStory(mediaId: Value, duration: Value, mediaType: Value)
    | PostToStory(caption: Value, mediaId: Value, duration: Value, mediaType: Value)
    | DeleteStory(username: Value, storyId: Value)

  // ---------------------------------------------------------------------------------------
  // The friend diff

  function SetOf(names: seq<string>): set<string>
  {
    set x | x in names
  }

  /** The names that appeared and disappeared between two snapshots of the "added me" list. */
  datatype Diff = Diff(added: set<string>, removed: set<string>)

  /** `set(current).difference(previous)` and `set(previous).difference(current)`. */
  function FriendDiff(previous: seq<string>, current: seq<string>): (d: Diff)
    ensures forall x :: x in d.added <==> x in current && x !in previous
    ensures forall x :: x in d.removed <==> x in previous && x !in current
  {
    Diff(SetOf(current) - SetOf(previous), SetOf(previous) - SetOf(current))
  }

  /** No name is both added and removed, and applying the diff to the old snapshot gives the new one. */
  lemma DiffLaws(previous: seq<string>, current: seq<string>)
    ensures FriendDiff(previous, current).added !! FriendDiff(previous, current).removed
    ensures (SetOf(previous) + FriendDiff(previous, current).added) - FriendDiff(previous, current).removed == SetOf(current)
    ensures SetOf(previous) == SetOf(current) <==> FriendDiff(previous, current) == Diff({}, {})
  {
    var d := FriendDiff(previous, current);
    if FriendDiff(previous, current) == Diff({}, {}) {
      assert forall x :: x in previous <==> x in current by {
        forall x ensures x in previous <==> x in current {
          assert x !in d.added && x !in d.removed;
        }
      }
    }
  }

  /** Swapping the snapshots swaps the two halves of the diff. */
  lemma DiffReversed(previous: seq<string>, current: seq<string>)
    ensures FriendDiff(current, previous) == Diff(FriendDiff(previous, current).removed, FriendDiff(previous, current).added)
  {
  }

  /** The call one friend hook makes, with the list the engine holds while it runs. */
  function FriendCall(name: string, added: bool, seen: seq<string>): Call
  {
    if added then OnFriendAdd(name, seen) else OnFriendDelete(name, seen)
  }

  /** The hook calls for the names of a diff set, in the order the set is iterated. */
  function FriendCalls(order: seq<string>, added: bool, seen: seq<string>): seq<Call>
  {
    seq(|order|, i requires 0 <= i < |order| => FriendCall(order[i], added, seen))
  }

  predicate Distinct(order: seq<string>)
  {
    forall i, j | 0 <= i < j < |order| :: order[i] != order[j]
  }

  /** Iterating a set once calls the hook exactly once per name and for no other name. */
  lemma {:induction false} FriendCallsOnce(order: seq<string>, added: bool, seen: seq<string>, x: string)
    requires Distinct(order)
    ensures multiset(FriendCalls(order, added, seen))[FriendCall(x, added, seen)] == if x in order then 1 else 0
    decreases |order|
  {
    if order != [] {
      var rest := order[1..];
      assert FriendCalls(order, added, seen) == [FriendCall(order[0], added, seen)] + FriendCalls(rest, added, seen);
      assert Distinct(rest);
      FriendCallsOnce(rest, added, seen, x);
      assert order[0] !in rest;
      assert x in order <==> x == order[0] || x in rest by {
        assert order == [order[0]] + rest;
      }
    }
  }

  /**
   * `for friend in names: if hasattr(...): hook(friend)`: Python chooses the order of a set,
   * so the order is an out-parameter, proved to list every name of the set once.
   */
  method DispatchFriendHooks(names: set<string>, defined: bool, added: bool, seen: seq<string>)
    returns (order: seq<string>, calls: seq<Call>)
    ensures forall x :: x in order <==> x in names
    ensures |order| == |names| && Distinct(order)
    ensures calls == if defined then FriendCalls(order, added, seen) else []
    ensures defined ==> forall x :: multiset(calls)[FriendCall(x, added, seen)] == if x in names then 1 else 0
  {
    order, calls := [], [];
    var rest := names;
    while rest != {}
      invariant rest <= names
      invariant forall x :: x in order <==> x in names && x !in rest
      invariant |order| + |rest| == |names|
      invariant Distinct(order)
      invariant calls == if defined then FriendCalls(order, added, seen) else []
      decreases |rest|
    {
      var x :| x in rest;
      order := order + [x];
      if defined {
        calls := calls + [FriendCall(x, added, seen)];
        assert calls == FriendCalls(order, added, seen);
      }
      rest := rest - {x};
    }
    if defined {
      forall x ensures multiset(calls)[FriendCall(x, added, seen)] == if x in names then 1 else 0 {
        FriendCallsOnce(order, added, seen, x);
      }
    }
  }

  /** The calls of the two hook loops: the add hooks in the added order, then the delete hooks. */
  function FriendHookCalls(hooks: Hooks, addedOrder: seq<string>, deletedOrder: seq<string>, seen: seq<string>): seq<Call>
  {
    (if hooks.onFriendAdd then FriendCalls(addedOrder, true, seen) else [])
    + (if hooks.onFriendDelete then FriendCalls(deletedOrder, false, seen) else [])
  }

  /**
   * The two hook loops of a cycle: on_friend_add for each added name, then on_friend_delete
   * for each removed name, each hook seeing the snapshot `seen`.
   */
  method FriendHooks(diff: Diff, hooks: Hooks, seen: seq<string>)
    returns (addedOrder: seq<string>, deletedOrder: seq<string>, calls: seq<Call>)
    ensures (forall x :: x in addedOrder <==> x in diff.added) && Distinct(addedOrder)
    ensures (forall x :: x in deletedOrder <==> x in diff.removed) && Distinct(deletedOrder)
    ensures calls == FriendHookCalls(hooks, addedOrder, deletedOrder, seen)
  {
    var onAdd, onDelete;
    addedOrder, onAdd := DispatchFriendHooks(diff.added, hooks.onFriendAdd, true, seen);
    deletedOrder, onDelete := DispatchFriendHooks(diff.removed, hooks.onFriendDelete, false, seen);
    calls := onAdd + onDelete;
  }

  // ---------------------------------------------------------------------------------------
  // The record pipeline of get_snaps

  /** A mapped record holding the keys get_snaps and process_snap read. */
  predicate Readable(rec: Client.Record)
  {
    "status" in rec && "id" in rec && "media_type" in rec && "time" in rec && "sender" in rec
  }

  predicate AllReadable(records: seq<Client.Record>)
  {
    forall i | 0 <= i < |records| :: Readable(records[i])
  }

  /** Every record the client's get_snaps maps carries the keys the engines read. */
  lemma MappedReadable(records: seq<Client.Record>)
    requires forall i :: 0 <= i < |records| ==> records[i].Keys == Client.RecordKeys
    ensures AllReadable(records)
  {
  }

  /** `snap['status'] == 2`: the snap was already opened and is skipped. */
  predicate Consumed(rec: Client.Record)
    requires Readable(rec)
  {
    PyEq(rec["status"], 2)
  }

  /** What process_snap takes from a record and its blob. */
  datatype Incoming = Incoming(id: Value, mediaType: Value, time: Value, sender: Value, data: Bytes)

  /** The keyword arguments process_snap passes to Snap. */
  function ProcessOpts(inc: Incoming): map<string, Value>
  {
    map["data" := Blob(inc.data), "snap_id" := inc.id, "media_type" := inc.mediaType,
        "duration" := inc.time, "sender" := inc.sender]
  }

  /**
   * The snap process_snap builds, whose temporary file has the given stem: the record's id,
   * declared media type, time and sender, not the user's own, not uploaded, not a story, and
   * a temporary file that holds the blob, written as is for a video code and resized otherwise.
   */
  function Processed(inc: Incoming, tempStem: string): Snaps.Fields
  {
    var name := tempStem + "." + Utils.FileExtensionForType(inc.mediaType);
    var content := if Snaps.IsVideoCode(inc.mediaType) then Snaps.Written(Blob(inc.data)) else Snaps.Resized(Blob(inc.data));
    Snaps.Fields(false, inc.time, inc.mediaType, Null, Some(inc.sender), false, inc.id, None, Snaps.TempFile(name, content))
  }

  /** Snap(**opts) with the keyword arguments of process_snap builds exactly that snap. */
  lemma ProcessSnapCopies(inc: Incoming, tempStem: string)
    ensures Snaps.HasRequiredKeywords(ProcessOpts(inc))
    ensures Snaps.InitFields(ProcessOpts(inc), "", tempStem) == Ok(Processed(inc, tempStem))
  {
  }

  /** How the engine marks a snap it keeps: the poller's client calls, or the bot's own mark_viewed. */
  datatype MarkPolicy =
    | ClientMarks(viewed: bool, screenshotted: bool, replayed: bool)
    | BotMarks(viewed: bool)

  function MarkCalls(policy: MarkPolicy, snapId: Value, sender: Value): seq<Call>
  {
    match policy
    case ClientMarks(viewed, screenshotted, replayed) =>
      (if viewed then [MarkViewed(snapId, sender, replayed)] else []) +
      (if screenshotted then [MarkScreenshot(snapId, sender, replayed)] else [])
    case BotMarks(viewed) =>
      if viewed then [MarkViewedById(snapId)] else []
  }

  /** What one record contributes to the snaps get_snaps returns: nothing when skipped. */
  function KeptOne(rec: Client.Record, blob: Value -> Option<Bytes>): seq<Incoming>
    requires Readable(rec)
  {
    if Consumed(rec) then []
    else
      match blob(rec["id"])
      case None => []
      case Some(data) => [Incoming(rec["id"], rec["media_type"], rec["time"], rec["sender"], data)]
  }

  /**
   * The records get_snaps turns into snaps, in order; `blob` is what client.get_blob answers
   * of an id gives, before the client's validity check.
   */
  function Kept(records: seq<Client.Record>, blob: Value -> Option<Bytes>): seq<Incoming>
    requires AllReadable(records)
    decreases |records|
  {
    if records == [] then [] else KeptOne(records[0], blob) + Kept(records[1..], blob)
  }

  /** The calls one record causes: none when consumed, a blob fetch, then the marks if the blob is valid. */
  function RecordCalls(rec: Client.Record, blob: Value -> Option<Bytes>, policy: MarkPolicy): seq<Call>
    requires Readable(rec)
  {
    if Consumed(rec) then []
    else
      [FetchBlob(rec["id"])] +
      match blob(rec["id"])
      case None => []
      case Some(_) => MarkCalls(policy, rec["id"], rec["sender"])
  }

  function PipelineCalls(records: seq<Client.Record>, blob: Value -> Option<Bytes>, policy: MarkPolicy): seq<Call>
    requires AllReadable(records)
    decreases |records|
  {
    if records == [] then [] else RecordCalls(records[0], blob, policy) + PipelineCalls(records[1..], blob, policy)
  }

  lemma ReadableAppend(a: seq<Client.Record>, b: seq<Client.Record>)
    requires AllReadable(a) && AllReadable(b)
    ensures AllReadable(a + b)
  {
    forall i | 0 <= i < |a + b| ensures Readable((a + b)[i]) {
      if i < |a| { assert (a + b)[i] == a[i]; } else { assert (a + b)[i] == b[i - |a|]; }
    }
  }

  /** The snaps kept from two runs of records are those of the first run, then those of the second. */
  lemma {:induction false} KeptAppend(a: seq<Client.Record>, b: seq<Client.Record>, blob: Value -> Option<Bytes>)
    requires AllReadable(a) && AllReadable(b)
    ensures AllReadable(a + b) && Kept(a + b, blob) == Kept(a, blob) + Kept(b, blob)
    decreases |a|
  {
    ReadableAppend(a, b);
    if a == [] {
      assert a + b == b;
    } else {
      assert (a + b)[1..] == a[1..] + b;
      KeptAppend(a[1..], b, blob);
    }
  }

  /** The calls made for two runs of records are those of the first run, then those of the second. */
  lemma {:induction false} CallsAppend(a: seq<Client.Record>, b: seq<Client.Record>, blob: Value -> Option<Bytes>, policy: MarkPolicy)
    requires AllReadable(a) && AllReadable(b)
    ensures AllReadable(a + b) && PipelineCalls(a + b, blob, policy) == PipelineCalls(a, blob, policy) + PipelineCalls(b, blob, policy)
    decreases |a|
  {
    ReadableAppend(a, b);
    if a == [] {
      assert a + b == b;
    } else {
      assert (a + b)[1..] == a[1..] + b;
      CallsAppend(a[1..], b, blob, policy);
    }
  }

  /** Every snap get_snaps keeps is what a record of the input contributes on its own. */
  lemma {:induction false} KeptSound(records: seq<Client.Record>, blob: Value -> Option<Bytes>, k: nat)
    requires AllReadable(records) && k < |Kept(records, blob)|
    ensures exists i | 0 <= i < |records| :: KeptOne(records[i], blob) == [Kept(records, blob)[k]]
    decreases |records|
  {
    var head := KeptOne(records[0], blob);
    if k < |head| {
      assert Kept(records, blob)[k] == head[k];
      assert KeptOne(records[0], blob) == [Kept(records, blob)[k]];
    } else {
      assert Kept(records, blob)[k] == Kept(records[1..], blob)[k - |head|];
      KeptSound(records[1..], blob, k - |head|);
      var i :| 0 <= i < |records[1..]| && KeptOne(records[1..][i], blob) == [Kept(records[1..], blob)[k - |head|]];
      assert records[1..][i] == records[i + 1];
    }
  }

  /** A record contributes a snap exactly when it is not consumed and its blob is valid. */
  lemma KeptOneRule(rec: Client.Record, blob: Value -> Option<Bytes>, inc: Incoming)
    requires Readable(rec)
    ensures KeptOne(rec, blob) == [inc] <==>
              && !Consumed(rec) && blob(rec["id"]) == Some(inc.data)
              && inc == Incoming(rec["id"], rec["media_type"], rec["time"], rec["sender"], inc.data)
  {
  }

  /** Every unconsumed record whose blob is valid yields a snap. */
  lemma {:induction false} KeptComplete(records: seq<Client.Record>, blob: Value -> Option<Bytes>, i: nat)
    requires AllReadable(records) && i < |records|
    requires !Consumed(records[i]) && blob(records[i]["id"]).Some?
    ensures Incoming(records[i]["id"], records[i]["media_type"], records[i]["time"], records[i]["sender"],
                     blob(records[i]["id"]).value) in Kept(records, blob)
    decreases |records|
  {
    if i > 0 {
      assert records[1..][i - 1] == records[i];
      KeptComplete(records[1..], blob, i - 1);
    }
  }

  /** When get_blob keeps only decrypted data with a signature, every kept snap holds a video, an image or a zip. */
  lemma KeptBlobsAreMedia(records: seq<Client.Record>, decrypted: Value -> Bytes, blob: Value -> Option<Bytes>, k: nat)
    requires forall id :: blob(id) == Client.AcceptBlob(decrypted(id))
    requires AllReadable(records) && k < |Kept(records, blob)|
    ensures var data := Kept(records, blob)[k].data;
      Client.IsVideo(data) || Client.IsImage(data) || Client.IsZip(data)
  {
    KeptSound(records, blob, k);
    var i :| 0 <= i < |records| && KeptOne(records[i], blob) == [Kept(records, blob)[k]];
    KeptOneRule(records[i], blob, Kept(records, blob)[k]);
    Client.AcceptedBlobKinds(decrypted(records[i]["id"]));
  }

  // The subjects of the calls of one kind, in the order they were made.

  datatype Kind = Fetch | View | Screenshot

  function SubjectOf(c: Call, kind: Kind): seq<Value>
  {
    match (c, kind)
    case (FetchBlob(id), Fetch) => [id]
    case (MarkViewed(id, _, _), View) => [id]
    case (MarkViewedById(id), View) => [id]
    case (MarkScreenshot(id, _, _), Screenshot) => [id]
    case _ => []
  }

  function Subjects(calls: seq<Call>, kind: Kind): seq<Value>
    decreases |calls|
  {
    if calls == [] then [] else SubjectOf(calls[0], kind) + Subjects(calls[1..], kind)
  }

  lemma {:induction false} SubjectsAppend(a: seq<Call>, b: seq<Call>, kind: Kind)
    ensures Subjects(a + b, kind) == Subjects(a, kind) + Subjects(b, kind)
    decreases |a|
  {
    if a != [] {
      assert (a + b)[1..] == a[1..] + b;
      SubjectsAppend(a[1..], b, kind);
    } else {
      assert a + b == b;
    }
  }

  function IdsOf(kept: seq<Incoming>): seq<Value>
    decreases |kept|
  {
    if kept == [] then [] else [kept[0].id] + IdsOf(kept[1..])
  }

  lemma {:induction false} IdsOfAppend(a: seq<Incoming>, b: seq<Incoming>)
    ensures IdsOf(a + b) == IdsOf(a) + IdsOf(b)
    decreases |a|
  {
    if a != [] {
      assert (a + b)[1..] == a[1..] + b;
      IdsOfAppend(a[1..], b);
    } else {
      assert a + b == b;
    }
  }

  /** Whether the policy marks kept snaps with this kind of call; no mark fetches anything. */
  predicate Marks(policy: MarkPolicy, kind: Kind)
  {
    match kind
    case Fetch => false
    case View => policy.viewed
    case Screenshot => policy.ClientMarks? && policy.screenshotted
  }

  lemma SubjectsSingle(c: Call, kind: Kind)
    ensures Subjects([c], kind) == SubjectOf(c, kind)
  {
    assert [c][1..] == [];
  }

  lemma MarkSubjects(policy: MarkPolicy, snapId: Value, sender: Value, kind: Kind)
    ensures Subjects(MarkCalls(policy, snapId, sender), kind) == if Marks(policy, kind) then [snapId] else []
  {
    match policy
    case BotMarks(viewed) =>
      if viewed {
        SubjectsSingle(MarkViewedById(snapId), kind);
      }
    case ClientMarks(viewed, screenshotted, replayed) =>
      ClientMarkSubjects(viewed, screenshotted, replayed, snapId, sender, kind);
  }

  lemma ClientMarkSubjects(viewed: bool, screenshotted: bool, replayed: bool, snapId: Value, sender: Value, kind: Kind)
    ensures Subjects(MarkCalls(ClientMarks(viewed, screenshotted, replayed), snapId, sender), kind)
            == (if viewed && kind == View then [snapId] else []) + (if screenshotted && kind == Screenshot then [snapId] else [])
  {
    var v: seq<Call> := if viewed then [MarkViewed(snapId, sender, replayed)] else [];
    var c: seq<Call> := if screenshotted then [MarkScreenshot(snapId, sender, replayed)] else [];
    SubjectsAppend(v, c, kind);
    SubjectsSingle(MarkViewed(snapId, sender, replayed), kind);
    SubjectsSingle(MarkScreenshot(snapId, sender, replayed), kind);
  }

  /** The ids whose blob get_snaps fetches, or marks, in order, for each kind of call. */
  function Expected(records: seq<Client.Record>, blob: Value -> Option<Bytes>, policy: MarkPolicy, kind: Kind): seq<Value>
    requires AllReadable(records)
    decreases |records|
  {
    if records == [] then []
    else
      var rec := records[0];
      var here :=
        if kind == Fetch then (if Consumed(rec) then [] else [rec["id"]])
        else if Marks(policy, kind) then IdsOf(KeptOne(rec, blob))
        else [];
      here + Expected(records[1..], blob, policy, kind)
  }

  lemma RecordSubjects(rec: Client.Record, blob: Value -> Option<Bytes>, policy: MarkPolicy, kind: Kind)
    requires Readable(rec)
    ensures Subjects(RecordCalls(rec, blob, policy), kind) ==
              if kind == Fetch then (if Consumed(rec) then [] else [rec["id"]])
              else if Marks(policy, kind) then IdsOf(KeptOne(rec, blob))
              else []
  {
    if !Consumed(rec) {
      var fetch := [FetchBlob(rec["id"])];
      var marks := match blob(rec["id"]) case None => [] case Some(_) => MarkCalls(policy, rec["id"], rec["sender"]);
      assert RecordCalls(rec, blob, policy) == fetch + marks;
      SubjectsAppend(fetch, marks, kind);
      assert Subjects(fetch, kind) == SubjectOf(fetch[0], kind);
      MarkSubjects(policy, rec["id"], rec["sender"], kind);
      match blob(rec["id"])
      case None =>
      case Some(data) =>
        var inc := Incoming(rec["id"], rec["media_type"], rec["time"], rec["sender"], data);
        assert KeptOne(rec, blob) == [inc];
        assert IdsOf([inc]) == [inc.id];
    }
  }

  lemma {:induction false} PipelineSubjects(records: seq<Client.Record>, blob: Value -> Option<Bytes>, policy: MarkPolicy, kind: Kind)
    requires AllReadable(records)
    ensures Subjects(PipelineCalls(records, blob, policy), kind) == Expected(records, blob, policy, kind)
    decreases |records|
  {
    if records != [] {
      PipelineSubjects(records[1..], blob, policy, kind);
      SubjectsAppend(RecordCalls(records[0], blob, policy), PipelineCalls(records[1..], blob, policy), kind);
      RecordSubjects(records[0], blob, policy, kind);
    }
  }

  function UnconsumedIds(records: seq<Client.Record>): seq<Value>
    requires AllReadable(records)
    decreases |records|
  {
    if records == [] then []
    else (if Consumed(records[0]) then [] else [records[0]["id"]]) + UnconsumedIds(records[1..])
  }

  lemma {:induction false} ExpectedIds(records: seq<Client.Record>, blob: Value -> Option<Bytes>, policy: MarkPolicy, kind: Kind)
    requires AllReadable(records)
    ensures Expected(records, blob, policy, kind) ==
              if kind == Fetch then UnconsumedIds(records)
              else if Marks(policy, kind) then IdsOf(Kept(records, blob))
              else []
    decreases |records|
  {
    if records != [] {
      ExpectedIds(records[1..], blob, policy, kind);
      IdsOfAppend(KeptOne(records[0], blob), Kept(records[1..], blob));
    }
  }

  /**
   * Blobs are fetched, in order, for exactly the records that are not consumed; snaps are
   * marked viewed (or screenshotted), in order, exactly for the snaps get_snaps keeps, and
   * only when the policy asks for that mark.
   */
  lemma PipelineMarks(records: seq<Client.Record>, blob: Value -> Option<Bytes>, policy: MarkPolicy)
    requires AllReadable(records)
    ensures Subjects(PipelineCalls(records, blob, policy), Fetch) == UnconsumedIds(records)
    ensures Subjects(PipelineCalls(records, blob, policy), View) == if policy.viewed then IdsOf(Kept(records, blob)) else []
    ensures Subjects(PipelineCalls(records, blob, policy), Screenshot) ==
              if policy.ClientMarks? && policy.screenshotted then IdsOf(Kept(records, blob)) else []
  {
    PipelineSubjects(records, blob, policy, Fetch);
    PipelineSubjects(records, blob, policy, View);
    PipelineSubjects(records, blob, policy, Screenshot);
    ExpectedIds(records, blob, policy, Fetch);
    ExpectedIds(records, blob, policy, View);
    ExpectedIds(records, blob, policy, Screenshot);
  }

  /** One step of the get_snaps loop: the record's snap, if any, and the calls it causes. */
  lemma StepSpec(prefix: seq<Client.Record>, rec: Client.Record, blob: Value -> Option<Bytes>, policy: MarkPolicy)
    requires AllReadable(prefix) && Readable(rec)
    ensures AllReadable(prefix + [rec])
    ensures Kept(prefix + [rec], blob) == Kept(prefix, blob) + KeptOne(rec, blob)
    ensures PipelineCalls(prefix + [rec], blob, policy) == PipelineCalls(prefix, blob, policy) + RecordCalls(rec, blob, policy)
  {
    assert AllReadable([rec]);
    KeptAppend(prefix, [rec], blob);
    CallsAppend(prefix, [rec], blob, policy);
    assert Kept([rec], blob) == KeptOne(rec, blob) + Kept([], blob);
    assert PipelineCalls([rec], blob, policy) == RecordCalls(rec, blob, policy) + PipelineCalls([], blob, policy);
  }

  /** The k-th snap holds what process_snap builds from the k-th kept record, in a file of stem tempStem(k). */
  ghost predicate Holds(snaps: seq<Snaps.Snap>, kept: seq<Incoming>, tempStem: nat -> string)
    reads set k | 0 <= k < |snaps| :: snaps[k]
  {
    |snaps| == |kept| && forall k | 0 <= k < |snaps| :: snaps[k].State() == Processed(kept[k], tempStem(k))
  }

  lemma HoldsAppend(snaps: seq<Snaps.Snap>, kept: seq<Incoming>, s: Snaps.Snap, inc: Incoming, tempStem: nat -> string)
    requires Holds(snaps, kept, tempStem)
    requires s.State() == Processed(inc, tempStem(|snaps|))
    ensures Holds(snaps + [s], kept + [inc], tempStem)
  {
  }

  /**
   * The body of the get_snaps loop for one record: skip it when consumed, fetch its blob,
   * skip it when the blob is invalid, otherwise build the snap and mark it.
   */
  method ProcessRecord(rec: Client.Record, blob: Value -> Option<Bytes>, policy: MarkPolicy, tempStem: string)
    returns (snap: Option<Snaps.Snap>, calls: seq<Call>)
    requires Readable(rec)
    ensures calls == RecordCalls(rec, blob, policy)
    ensures snap.None? <==> KeptOne(rec, blob) == []
    ensures snap.Some? ==> |KeptOne(rec, blob)| == 1 && fresh(snap.value) && snap.value.Valid() &&
                           snap.value.State() == Processed(KeptOne(rec, blob)[0], tempStem)
  {
    if PyEq(rec["status"], 2) {
      return None, [];
    }
    calls := [FetchBlob(rec["id"])];
    var data := blob(rec["id"]);
    if data.None? {
      return None, calls;
    }
    var inc := Incoming(rec["id"], rec["media_type"], rec["time"], rec["sender"], data.value);
    ProcessSnapCopies(inc, tempStem);
    var s := new Snaps.Snap(ProcessOpts(inc), "", tempStem);
    calls := calls + MarkCalls(policy, s.snapId, s.sender.value);
    snap := Some(s);
  }

  /**
   * The loop of get_snaps, shared by both engines: each record in turn, keeping the snaps
   * built (the k-th temporary file has stem tempStem(k)) and the calls made.
   */
  method CollectSnaps(records: seq<Client.Record>, blob: Value -> Option<Bytes>, policy: MarkPolicy, tempStem: nat -> string)
    returns (snaps: seq<Snaps.Snap>, calls: seq<Call>)
    requires AllReadable(records)
    ensures calls == PipelineCalls(records, blob, policy)
    ensures Holds(snaps, Kept(records, blob), tempStem)
  {
    snaps, calls := [], [];
    ghost var kept: seq<Incoming> := [];
    var i := 0;
    while i < |records|
      invariant 0 <= i <= |records|
      invariant calls == PipelineCalls(records[..i], blob, policy)
      invariant kept == Kept(records[..i], blob)
      invariant Holds(snaps, kept, tempStem)
    {
      snaps, calls, kept := CollectOne(records, i, blob, policy, tempStem, snaps, calls, kept);
      i := i + 1;
    }
    assert records[..i] == records;
  }

  /** One turn of the get_snaps loop: the snaps and calls for the first i records extended to i + 1. */
  method CollectOne(records: seq<Client.Record>, i: nat, blob: Value -> Option<Bytes>, policy: MarkPolicy, tempStem: nat -> string,
                    snaps: seq<Snaps.Snap>, calls: seq<Call>, ghost kept: seq<Incoming>)
    returns (snaps': seq<Snaps.Snap>, calls': seq<Call>, ghost kept': seq<Incoming>)
    requires AllReadable(records) && i < |records|
    requires calls == PipelineCalls(records[..i], blob, policy)
    requires kept == Kept(records[..i], blob)
    requires Holds(snaps, kept, tempStem)
    ensures calls' == PipelineCalls(records[..i + 1], blob, policy)
    ensures kept' == Kept(records[..i + 1], blob)
    ensures Holds(snaps', kept', tempStem)
  {
    var rec := records[i];
    assert records[..i + 1] == records[..i] + [rec];
    StepSpec(records[..i], rec, blob, policy);
    var snap, more := ProcessRecord(rec, blob, policy, tempStem(|snaps|));
    calls' := calls + more;
    kept' := kept + KeptOne(rec, blob);
    snaps' := snaps;
    if snap.Some? {
      HoldsAppend(snaps, kept, snap.value, KeptOne(rec, blob)[0], tempStem);
      snaps' := snaps + [snap.value];
    }
  }

  /** `for snap in snaps: self.on_snap(snap.sender, snap)`. */
  function SnapHookCalls(kept: seq<Incoming>, snaps: seq<Snaps.Snap>): seq<Call>
    requires |kept| == |snaps|
  {
    seq(|snaps|, k requires 0 <= k < |snaps| => OnSnap(kept[k].sender, snaps[k]))
  }

  /** The on_snap hook runs once per snap returned, in order, with the snap's sender. */
  method DispatchSnapHooks(ghost kept: seq<Incoming>, snaps: seq<Snaps.Snap>, tempStem: nat -> string) returns (calls: seq<Call>)
    requires Holds(snaps, kept, tempStem)
    ensures calls == SnapHookCalls(kept, snaps)
  {
    calls := [];
    var j := 0;
    while j < |snaps|
      invariant 0 <= j <= |snaps|
      invariant calls == SnapHookCalls(kept[..j], snaps[..j])
    {
      calls := calls + [OnSnap(snaps[j].sender.value, snaps[j])];
      j := j + 1;
    }
    assert kept[..j] == kept && snaps[..j] == snaps;
  }

  // ---------------------------------------------------------------------------------------
  // Logging in

  /**
   * The check after client.login: a client left with neither a username nor a token is a
   * failed login, reported from the response's status and message (raising KeyError or
   * TypeError when they cannot be read) and ending in SystemExit(1).
   */
  function LoginCheck(session: Client.Session, info: Value): (r: Option<Error>)
    ensures r.None? <==> session.username != Null || session.authToken != Null
    ensures r.Some? && Get(info, "status").Ok? && Get(info, "message").Ok? ==> r == Some(SystemExit(1))
    ensures r.Some? && Get(info, "status").Err? ==> r == Some(Get(info, "status").error)
    ensures r.Some? && Get(info, "status").Ok? && Get(info, "message").Err? ==> r == Some(Get(info, "message").error)
  {
    if session.username == Null && session.authToken == Null then
      match Get(info, "status")
      case Err(e) => Some(e)
      case Ok(_) =>
        match Get(info, "message")
        case Err(e) => Some(e)
        case Ok(_) => Some(SystemExit(1))
    else None
  }

  /** Starting an engine: the exception of client.login, or of the check after it. */
  function StartError(loginResponse: Value): Option<Error>
  {
    var outcome := Client.LoginOutcome(loginResponse);
    match outcome.1
    case Err(e) => Some(e)
    case Ok(info) => LoginCheck(outcome.0, info)
  }

  /** A login the server refuses with a status and a message ends the program with status 1. */
  lemma RefusedLoginExits(response: map<string, Value>)
    requires "status" in response && "message" in response
    ensures StartError(Object(response)) == Some(SystemExit(1))
  {
    Client.LoginStatusLeavesReset(Object(response));
  }

  /** A login whose update response carries a token starts the engine. */
  lemma TokenLoginStarts(response: map<string, Value>, updates: map<string, Value>)
    requires "status" !in response && "updates_response" in response && response["updates_response"] == Object(updates)
    requires "auth_token" in updates && updates["auth_token"] != Null
    ensures StartError(Object(response)).None?
  {
    Client.LoginAdopts(Object(response), updates);
  }

  // ---------------------------------------------------------------------------------------
  // Sending

  /** The strings of a list of values, when every item is one. */
  function Strings(items: seq<Value>): (r: Option<seq<string>>)
    ensures r.Some? <==> forall i | 0 <= i < |items| :: items[i].Str?
    ensures r.Some? ==> |r.value| == |items| && forall i | 0 <= i < |items| :: r.value[i] == items[i].s
    decreases |items|
  {
    if items == [] then Some([])
    else if !items[0].Str? then None
    else match Strings(items[1..])
      case None => None
      case Some(rest) => Some([items[0].s] + rest)
  }

  /**
   * The recipients string of send_snap: a value that is not a list is wrapped in one, then the
   * items are joined with ','; an item that is not a string raises TypeError.
   */
  function Recipients(recipients: Value): (r: Result<string>)
    ensures recipients.Str? ==> r == Ok(recipients.s)
    ensures !recipients.List? && !recipients.Str? ==> r == Err(TypeError)
    ensures recipients.List? ==> (r.Ok? <==> forall i | 0 <= i < |recipients.items| :: recipients.items[i].Str?)
    ensures r.Err? ==> r.error == TypeError
  {
    var items := if recipients.List? then recipients.items else [recipients];
    match Strings(items)
    case None => Err(TypeError)
    case Some(names) => Ok(Join(names, ','))
  }

  /** The server splits the recipients string on ',' and gets back the names, when no name holds a comma. */
  lemma RecipientsRoundTrip(names: seq<string>)
    requires |names| >= 1
    requires forall i | 0 <= i < |names| :: ',' !in names[i]
    ensures var items := seq(|names|, i requires 0 <= i < |names| => Str(names[i]));
      Recipients(List(items)).Ok? && Split(Recipients(List(items)).value, ',') == names
  {
    var items := seq(|names|, i requires 0 <= i < |names| => Str(names[i]));
    assert Strings(items).value == names;
    SplitJoin(names, ',');
  }

  /**
   * send_snap, shared by both engines: upload first unless the snap is uploaded (given what
   * the client's upload answers), then send the media id to the joined recipients. An
   * exception from the upload or from the join stops it; the upload stays done.
   */
  method SendSnap(snap: Snaps.Snap, recipients: Value, uploadOutcome: Result<Value>) returns (r: Result<Call>)
    requires snap.Valid()
    modifies snap
    ensures snap.Valid()
    ensures old(snap.uploaded) || uploadOutcome.Err? ==> snap.State() == old(snap.State())
    ensures !old(snap.uploaded) && uploadOutcome.Ok? ==>
              snap.State() == old(snap.State()).(uploaded := true, mediaId := Some(uploadOutcome.value))
    ensures !old(snap.uploaded) && uploadOutcome.Err? ==> r == Err(uploadOutcome.error)
    ensures (old(snap.uploaded) || uploadOutcome.Ok?) && Recipients(recipients).Err? ==> r == Err(TypeError)
    ensures r.Ok? <==> (old(snap.uploaded) || uploadOutcome.Ok?) && Recipients(recipients).Ok?
    ensures r.Ok? ==> snap.uploaded && r.value == Send(snap.mediaId.value, Recipients(recipients).value, snap.duration)
  {
    if !snap.uploaded {
      var err := snap.Upload(uploadOutcome);
      if err.Some? {
        return Err(err.value);
      }
    }
    var joined := Recipients(recipients);
    if joined.Err? {
      return Err(joined.error);
    }
    r := Ok(Send(snap.mediaId.value, joined.value, snap.duration));
  }

  /** `response['json']['story']['id']`. */
  function StoryIdFrom(response: Value): Result<Value>
  {
    var json :- Get(response, "json");
    var story :- Get(json, "story");
    Get(story, "id")
  }
}
