/** The store-side logic of DDBService (service/database.go): the table keys
    of content records, the account query, batch deletion and batch writing,
    and the sequential producers that turn query pages into delete batches. */
module Database {
  import opened Model
  import opened Utils
  import opened Store
  import opened Channel

  /** The most write requests the code puts into one BatchWriteItem call. */
  const MaxBatchWriteItem: nat := 25
  const AccountPrefix := "ACCT#"
  const ContentPrefix := "CTNT#"
  const ProjectionExpression := "account_id, content_id"
  const QueryLimit: nat := 500

  // ---------------------------------------------------------------- keys

  function PartitionKey(accountID: string): string
  {
    AccountPrefix + accountID
  }

  function SortKey(contentID: string): string
  {
    ContentPrefix + contentID
  }

  /** The table key of the content record (accountID, contentID). */
  function ContentKey(accountID: string, contentID: string): Key
  {
    Key(PartitionKey(accountID), SortKey(contentID))
  }

  /** A content record's identity is its (accountID, contentID) pair: distinct
      pairs never share a table key. */
  lemma ContentKeyInjective(a1: string, c1: string, a2: string, c2: string)
    ensures ContentKey(a1, c1) == ContentKey(a2, c2) <==> a1 == a2 && c1 == c2
  {
    if ContentKey(a1, c1) == ContentKey(a2, c2) {
      assert a1 == PartitionKey(a1)[|AccountPrefix|..];
      assert a2 == PartitionKey(a2)[|AccountPrefix|..];
      assert c1 == SortKey(c1)[|ContentPrefix|..];
      assert c2 == SortKey(c2)[|ContentPrefix|..];
    }
  }

  /** The query for all content records of an account (queryInput). */
  function QueryInputFor(tableName: string, accountID: string): QueryInput
  {
    QueryInput(tableName, KeyCondition, PartitionKey(accountID), ContentPrefix,
               ProjectionExpression, QueryLimit, None)
  }

  /** The account query names the table, starts at the beginning, selects
      every content record of the account and nothing outside its partition
      and the content prefix. */
  lemma QueryInputSelects(tableName: string, accountID: string)
    ensures var q := QueryInputFor(tableName, accountID);
      q.tableName == tableName && q.exclusiveStartKey.None? &&
      (forall contentID :: Selects(q, ContentKey(accountID, contentID))) &&
      (forall key :: Selects(q, key) ==> key.pk == PartitionKey(accountID) && ContentPrefix <= key.sk)
  {
  }

  /** The account query selects a content record exactly when the record
      belongs to that account. */
  lemma QuerySelectsOwnAccount(tableName: string, a: string, b: string, contentID: string)
    ensures Selects(QueryInputFor(tableName, a), ContentKey(b, contentID)) <==> a == b
  {
    if Selects(QueryInputFor(tableName, a), ContentKey(b, contentID)) {
      assert a == PartitionKey(a)[|AccountPrefix|..];
      assert b == PartitionKey(b)[|AccountPrefix|..];
    }
  }

  // ------------------------------------------------------ write requests

  /** The delete requests DeleteAll builds: one per ID, in order. */
  function DeleteRequests(accountID: string, ids: seq<string>): seq<WriteRequest>
  {
    if ids == [] then [] else [Delete(ContentKey(accountID, ids[0]))] + DeleteRequests(accountID, ids[1..])
  }

  /** The i-th delete request removes the key of the i-th ID, under the account. */
  lemma {:induction false} DeleteRequestsIndex(accountID: string, ids: seq<string>)
    ensures |DeleteRequests(accountID, ids)| == |ids|
    ensures forall i :: 0 <= i < |ids| ==> DeleteRequests(accountID, ids)[i] == Delete(ContentKey(accountID, ids[i]))
    decreases |ids|
  {
    if ids != [] {
      DeleteRequestsIndex(accountID, ids[1..]);
    }
  }

  /** Whether no content ID occurs twice. */
  predicate DistinctIDs(ids: seq<string>)
  {
    forall i, j :: 0 <= i < j < |ids| ==> ids[i] != ids[j]
  }

  /** The store refuses a DeleteAll batch as naming a key twice exactly when
      a content ID repeats. */
  lemma DeleteRequestsDuplicates(accountID: string, ids: seq<string>)
    ensures DuplicateKeys(DeleteRequests(accountID, ids)) <==> !DistinctIDs(ids)
  {
    var rs := DeleteRequests(accountID, ids);
    DeleteRequestsIndex(accountID, ids);
    if DuplicateKeys(rs) {
      var i, j :| 0 <= i < j < |rs| && RequestKey(rs[i]) == RequestKey(rs[j]);
      ContentKeyInjective(accountID, ids[i], accountID, ids[j]);
    }
    if !DistinctIDs(ids) {
      var i, j :| 0 <= i < j < |ids| && ids[i] == ids[j];
      assert RequestKey(rs[i]) == RequestKey(rs[j]);
    }
  }

  /** The table keys of the content records `ids` of an account. */
  function IdKeys(accountID: string, ids: seq<string>): set<Key>
  {
    set id | id in ids :: ContentKey(accountID, id)
  }

  lemma DeleteRequestsKeys(accountID: string, ids: seq<string>)
    ensures DeletedKeys(DeleteRequests(accountID, ids)) == IdKeys(accountID, ids)
  {
    var rs := DeleteRequests(accountID, ids);
    DeleteRequestsIndex(accountID, ids);
    forall k | k in IdKeys(accountID, ids) ensures k in DeletedKeys(rs) {
      var id :| id in ids && k == ContentKey(accountID, id);
      var i :| 0 <= i < |ids| && ids[i] == id;
      assert rs[i].key == k;
    }
  }

  /** The item WriteItems stores for a content record, stamped `now`. */
  function PutItem(item: ContentItem, now: string): StoredItem
  {
    StoredItem(PartitionKey(item.accountID), SortKey(item.contentID), item.accountID, item.contentID, now, now)
  }

  /** The put requests WriteItems builds for one chunk: one per item, in order. */
  function PutRequests(items: seq<ContentItem>, now: string): seq<WriteRequest>
  {
    if items == [] then [] else [Put(PutItem(items[0], now))] + PutRequests(items[1..], now)
  }

  /** The i-th put request stores the i-th item. */
  lemma {:induction false} PutRequestsIndex(items: seq<ContentItem>, now: string)
    ensures |PutRequests(items, now)| == |items|
    ensures forall i :: 0 <= i < |items| ==> PutRequests(items, now)[i] == Put(PutItem(items[i], now))
    decreases |items|
  {
    if items != [] {
      PutRequestsIndex(items[1..], now);
    }
  }

  lemma PutRequestsAppend(a: seq<ContentItem>, b: seq<ContentItem>, now: string)
    ensures PutRequests(a + b, now) == PutRequests(a, now) + PutRequests(b, now)
  {
    PutRequestsIndex(a, now);
    PutRequestsIndex(b, now);
    PutRequestsIndex(a + b, now);
    var ab := a + b;
    assert forall i :: 0 <= i < |a| ==> ab[i] == a[i];
    assert forall i :: 0 <= i < |b| ==> ab[|a| + i] == b[i];
  }

  /** Every stored item carries the key ACCT#account / CTNT#content, and that
      key is one the account query selects. */
  lemma PutItemKey(tableName: string, item: ContentItem, now: string)
    ensures KeyOf(PutItem(item, now)) == ContentKey(item.accountID, item.contentID)
    ensures Selects(QueryInputFor(tableName, item.accountID), KeyOf(PutItem(item, now)))
  {
  }

  /** Whether no (account, content) pair occurs twice. */
  predicate DistinctRecords(items: seq<ContentItem>)
  {
    forall i, j :: 0 <= i < j < |items| ==>
      items[i].accountID != items[j].accountID || items[i].contentID != items[j].contentID
  }

  /** The store refuses a WriteItems batch as naming a key twice exactly when
      it holds one content record twice. */
  lemma PutRequestsDuplicates(items: seq<ContentItem>, now: string)
    ensures DuplicateKeys(PutRequests(items, now)) <==> !DistinctRecords(items)
  {
    var rs := PutRequests(items, now);
    PutRequestsIndex(items, now);
    if DuplicateKeys(rs) {
      var i, j :| 0 <= i < j < |rs| && RequestKey(rs[i]) == RequestKey(rs[j]);
      ContentKeyInjective(items[i].accountID, items[i].contentID, items[j].accountID, items[j].contentID);
    }
    if !DistinctRecords(items) {
      var i, j :| 0 <= i < j < |items| &&
        items[i].accountID == items[j].accountID && items[i].contentID == items[j].contentID;
      assert RequestKey(rs[i]) == RequestKey(rs[j]);
    }
  }

  /** Puts of content records never disagree on a key. */
  lemma PutRequestsConsistent(items: seq<ContentItem>, now: string)
    ensures ConsistentPuts(PutRequests(items, now))
  {
    var rs := PutRequests(items, now);
    PutRequestsIndex(items, now);
    forall i, j | 0 <= i < |rs| && 0 <= j < |rs| && KeyOf(rs[i].item) == KeyOf(rs[j].item)
      ensures rs[i].item == rs[j].item
    {
      ContentKeyInjective(items[i].accountID, items[i].contentID, items[j].accountID, items[j].contentID);
    }
  }

  /** After the puts of some content records, each record is stored under
      its key, stamped `now`. */
  lemma PutsStoreItems(m: map<Key, StoredItem>, items: seq<ContentItem>, now: string)
    ensures forall it :: it in items ==>
      ContentKey(it.accountID, it.contentID) in Apply(m, PutRequests(items, now)) &&
      Apply(m, PutRequests(items, now))[ContentKey(it.accountID, it.contentID)] == PutItem(it, now)
  {
    PutRequestsConsistent(items, now);
    PutRequestsIndex(items, now);
    ApplyPuts(m, PutRequests(items, now));
    forall it | it in items
      ensures ContentKey(it.accountID, it.contentID) in Apply(m, PutRequests(items, now)) &&
              Apply(m, PutRequests(items, now))[ContentKey(it.accountID, it.contentID)] == PutItem(it, now)
    {
      var i :| 0 <= i < |items| && items[i] == it;
      assert PutRequests(items, now)[i].item == PutItem(it, now);
    }
  }

  /** The put batches of WriteItems, one per chunk. */
  function PutBatches(chunks: seq<seq<ContentItem>>, now: string): seq<seq<WriteRequest>>
  {
    seq(|chunks|, j requires 0 <= j < |chunks| => PutRequests(chunks[j], now))
  }

  lemma {:induction false} PutBatchesFlatten(chunks: seq<seq<ContentItem>>, now: string)
    ensures Flatten(PutBatches(chunks, now)) == PutRequests(Flatten(chunks), now)
    decreases |chunks|
  {
    if chunks != [] {
      PutBatchesFlatten(chunks[1..], now);
      PutRequestsAppend(chunks[0], Flatten(chunks[1..]), now);
      assert PutBatches(chunks, now)[1..] == PutBatches(chunks[1..], now);
    } else {
      assert PutRequests([], now) == [];
    }
  }

  /** WriteItems never sends an empty batch or one over the store's
      ceiling: the store refuses one of its calls only when the chunk holds
      a content record twice, and otherwise the call fails only as a write
      failure. */
  lemma WriteItemsNeverRejected(failing: map<nat, string>, n: nat, items: seq<ContentItem>, now: string)
    ensures var chunks := Chunks(items, MaxBatchWriteItem);
      var batches := PutBatches(chunks, now);
      forall j :: 0 <= j < |batches| ==>
        0 < |batches[j]| <= BatchWriteLimit &&
        CallError(failing, n + j, batches[j]) ==
          if !DistinctRecords(chunks[j]) then Some(BatchInvalid(RepeatedKey))
          else if n + j in failing then Some(BatchWriteFailed(failing[n + j]))
          else None
  {
    var chunks := Chunks(items, MaxBatchWriteItem);
    ChunksShape(items, MaxBatchWriteItem);
    forall j | 0 <= j < |chunks|
      ensures 0 < |PutRequests(chunks[j], now)| <= BatchWriteLimit
      ensures DuplicateKeys(PutRequests(chunks[j], now)) <==> !DistinctRecords(chunks[j])
    {
      PutRequestsIndex(chunks[j], now);
      PutRequestsDuplicates(chunks[j], now);
    }
  }

  /** Once every WriteItems call has succeeded, each item is stored under
      its key, stamped `now`. */
  lemma WriteItemsStoresAll(m: map<Key, StoredItem>, items: seq<ContentItem>, now: string)
    ensures var batches := PutBatches(Chunks(items, MaxBatchWriteItem), now);
      forall it :: it in items ==>
        ContentKey(it.accountID, it.contentID) in Apply(m, Flatten(batches)) &&
        Apply(m, Flatten(batches))[ContentKey(it.accountID, it.contentID)] == PutItem(it, now)
  {
    ChunksFlatten(items, MaxBatchWriteItem);
    PutBatchesFlatten(Chunks(items, MaxBatchWriteItem), now);
    PutsStoreItems(m, items, now);
  }

  /** The BatchWriteItem calls for `batches`, in order. */
  function Calls(tableName: string, batches: seq<seq<WriteRequest>>): seq<BatchCall>
  {
    seq(|batches|, j requires 0 <= j < |batches| => BatchCall(tableName, batches[j]))
  }

  /** How many of `batches`, sent one call after another from call number
      `n`, succeed before the first failing call. */
  function Succeeding(failing: map<nat, string>, n: nat, batches: seq<seq<WriteRequest>>): (k: nat)
    ensures k <= |batches|
    decreases |batches|
  {
    if batches == [] || CallError(failing, n, batches[0]).Some? then 0
    else 1 + Succeeding(failing, n + 1, batches[1..])
  }

  /** The calls before the k-th succeed, and the k-th, if there is one, fails. */
  lemma {:induction false} SucceedingIndex(failing: map<nat, string>, n: nat, batches: seq<seq<WriteRequest>>)
    ensures var k := Succeeding(failing, n, batches);
      (forall j :: 0 <= j < k ==> CallError(failing, n + j, batches[j]).None?) &&
      (k < |batches| ==> CallError(failing, n + k, batches[k]).Some?)
    decreases |batches|
  {
    if batches != [] && CallError(failing, n, batches[0]).None? {
      SucceedingIndex(failing, n + 1, batches[1..]);
      var k := Succeeding(failing, n, batches);
      forall j | 0 <= j < k ensures CallError(failing, n + j, batches[j]).None? {
        if j > 0 { assert batches[j] == batches[1..][j - 1]; }
      }
    }
  }

  /** Succeeding counts exactly the calls before the first failing one. */
  lemma {:induction false} SucceedingExact(failing: map<nat, string>, n: nat, batches: seq<seq<WriteRequest>>, j: nat)
    requires j <= |batches|
    requires forall i :: 0 <= i < j ==> CallError(failing, n + i, batches[i]).None?
    requires j < |batches| ==> CallError(failing, n + j, batches[j]).Some?
    ensures Succeeding(failing, n, batches) == j
    decreases j
  {
    if j > 0 {
      forall i | 0 <= i < j - 1 ensures CallError(failing, n + 1 + i, batches[1..][i]).None? {
        assert batches[1..][i] == batches[i + 1];
      }
      SucceedingExact(failing, n + 1, batches[1..], j - 1);
    }
  }

  /** The number of calls a stop-at-first-error loop makes: the successful
      ones and the failing one, if any. */
  function Issued(k: nat, total: nat): nat
  {
    if k < total then k + 1 else k
  }

  /** What a run of BatchWriteItem calls leaves behind: the calls made, the
      error returned and the table. */
  datatype WriteOutcome = WriteOutcome(calls: seq<BatchCall>, err: Option<Error>, items: map<Key, StoredItem>)

  /** One BatchWriteItem call per batch from batch j on, in order, the first
      of them call number `n`, on a table holding `m`, stopping at the first
      call that fails. */
  function WriteRun(failing: map<nat, string>, n: nat, tableName: string, m: map<Key, StoredItem>,
                    batches: seq<seq<WriteRequest>>, j: nat): WriteOutcome
    decreases |batches| - j
  {
    if j >= |batches| then WriteOutcome([], None, m)
    else
      var call := BatchCall(tableName, batches[j]);
      match CallError(failing, n, batches[j])
      case Some(e) => WriteOutcome([call], Some(e), m)
      case None =>
        var rest := WriteRun(failing, n + 1, tableName, Apply(m, batches[j]), batches, j + 1);
        WriteOutcome([call] + rest.calls, rest.err, rest.items)
  }

  /** The run in closed form: with k the number of batches that succeed, it
      makes the calls for the first k batches and for the failing one, if
      any; it returns that call's error; and the table has the requests of
      the first k batches applied, in order, and no other. */
  lemma WriteRunOutcome(failing: map<nat, string>, n: nat, tableName: string,
                        m: map<Key, StoredItem>, batches: seq<seq<WriteRequest>>)
    ensures var k := Succeeding(failing, n, batches);
      WriteRun(failing, n, tableName, m, batches, 0) ==
        WriteOutcome(Calls(tableName, batches[..Issued(k, |batches|)]),
                     if k < |batches| then CallError(failing, n + k, batches[k]) else None,
                     Apply(m, Flatten(batches[..k])))
  {
    assert batches[0..] == batches;
    WriteRunCalls(failing, n, tableName, m, batches, 0);
    WriteRunErr(failing, n, tableName, m, batches, 0);
    WriteRunItems(failing, n, tableName, m, batches, 0);
  }

  lemma {:induction false} WriteRunCalls(failing: map<nat, string>, n: nat, tableName: string,
                                        m: map<Key, StoredItem>, batches: seq<seq<WriteRequest>>, j: nat)
    requires j <= |batches|
    ensures var bs := batches[j..];
      WriteRun(failing, n, tableName, m, batches, j).calls == Calls(tableName, bs[..Issued(Succeeding(failing, n, bs), |bs|)])
    decreases |batches| - j
  {
    var bs := batches[j..];
    if j < |batches| {
      if CallError(failing, n, bs[0]).Some? {
        assert Calls(tableName, bs[..1]) == [BatchCall(tableName, bs[0])];
      } else {
        var tail := batches[j + 1..];
        assert bs[1..] == tail;
        WriteRunCalls(failing, n + 1, tableName, Apply(m, bs[0]), batches, j + 1);
        var i := Issued(Succeeding(failing, n + 1, tail), |tail|);
        forall x | 0 <= x < i + 1
          ensures Calls(tableName, bs[..i + 1])[x] == ([BatchCall(tableName, bs[0])] + Calls(tableName, tail[..i]))[x]
        {
          if x > 0 { assert bs[x] == tail[x - 1]; }
        }
      }
    }
  }

  lemma {:induction false} WriteRunErr(failing: map<nat, string>, n: nat, tableName: string,
                                      m: map<Key, StoredItem>, batches: seq<seq<WriteRequest>>, j: nat)
    requires j <= |batches|
    ensures var bs := batches[j..];
      var k := Succeeding(failing, n, bs);
      WriteRun(failing, n, tableName, m, batches, j).err == if k < |bs| then CallError(failing, n + k, bs[k]) else None
    decreases |batches| - j
  {
    var bs := batches[j..];
    if j < |batches| && CallError(failing, n, bs[0]).None? {
      assert bs[1..] == batches[j + 1..];
      WriteRunErr(failing, n + 1, tableName, Apply(m, bs[0]), batches, j + 1);
    }
  }

  lemma {:induction false} WriteRunItems(failing: map<nat, string>, n: nat, tableName: string,
                                        m: map<Key, StoredItem>, batches: seq<seq<WriteRequest>>, j: nat)
    requires j <= |batches|
    ensures var bs := batches[j..];
      WriteRun(failing, n, tableName, m, batches, j).items == Apply(m, Flatten(bs[..Succeeding(failing, n, bs)]))
    decreases |batches| - j
  {
    var bs := batches[j..];
    var k := Succeeding(failing, n, bs);
    if j == |batches| || CallError(failing, n, bs[0]).Some? {
      assert bs[..k] == [];
    } else {
      var b, tail := bs[0], batches[j + 1..];
      assert bs[1..] == tail;
      var k' := Succeeding(failing, n + 1, tail);
      WriteRunItems(failing, n + 1, tableName, Apply(m, b), batches, j + 1);
      assert bs[..k][1..] == tail[..k'];
      ApplyAppend(m, b, Flatten(tail[..k']));
    }
  }

  // ------------------------------------------------------- delete batches

  predicate WellFormedBatch(accountID: string, b: DeleteItemRequest)
  {
    b.accountID == accountID && 0 < |b.contentIDs| <= MaxBatchWriteItem
  }

  /** The delete batches for `chunks`: one per chunk, keyed on the account. */
  function ToRequests(accountID: string, chunks: seq<seq<ContentItem>>): seq<DeleteItemRequest>
  {
    seq(|chunks|, j requires 0 <= j < |chunks| => DeleteItemRequest(accountID, ContentIDs(chunks[j])))
  }

  /** The delete batches sent for one page of items: the content IDs of 25
      items at a time while more than 25 remain, then of the rest, if any. */
  function PageBatches(accountID: string, items: seq<ContentItem>): seq<DeleteItemRequest>
  {
    ToRequests(accountID, Chunks(items, MaxBatchWriteItem))
  }

  /** All content IDs of `reqs`, in order. */
  function FlatIDs(reqs: seq<DeleteItemRequest>): seq<string>
  {
    if reqs == [] then [] else reqs[0].contentIDs + FlatIDs(reqs[1..])
  }

  lemma {:induction false} FlatIDsAppend(a: seq<DeleteItemRequest>, b: seq<DeleteItemRequest>)
    ensures FlatIDs(a + b) == FlatIDs(a) + FlatIDs(b)
    decreases |a|
  {
    if a == [] {
      assert a + b == b;
    } else {
      assert (a + b)[1..] == a[1..] + b;
      FlatIDsAppend(a[1..], b);
    }
  }

  lemma {:induction false} ToRequestsIDs(accountID: string, chunks: seq<seq<ContentItem>>)
    ensures FlatIDs(ToRequests(accountID, chunks)) == ContentIDs(Flatten(chunks))
    decreases |chunks|
  {
    if chunks != [] {
      ToRequestsIDs(accountID, chunks[1..]);
      ContentIDsAppend(chunks[0], Flatten(chunks[1..]));
      assert ToRequests(accountID, chunks)[1..] == ToRequests(accountID, chunks[1..]);
    } else {
      assert ContentIDs([]) == [];
    }
  }

  /** One page of n items is sent as ceil(n / 25) batches. */
  lemma PageBatchesCount(accountID: string, items: seq<ContentItem>)
    ensures |PageBatches(accountID, items)| == CeilDiv(|items|, MaxBatchWriteItem)
  {
    ChunksCount(items, MaxBatchWriteItem);
  }

  /** Every batch of a page is of the account and holds 1 to 25 IDs. */
  lemma PageBatchesWellFormed(accountID: string, items: seq<ContentItem>)
    ensures forall b :: b in PageBatches(accountID, items) ==> WellFormedBatch(accountID, b)
  {
    var chunks := Chunks(items, MaxBatchWriteItem);
    ChunksShape(items, MaxBatchWriteItem);
    forall b | b in PageBatches(accountID, items) ensures WellFormedBatch(accountID, b) {
      var j :| 0 <= j < |chunks| && PageBatches(accountID, items)[j] == b;
      ContentIDsIndex(chunks[j]);
    }
  }

  /** A page's batches carry its content IDs, in order. */
  lemma PageBatchesIDs(accountID: string, items: seq<ContentItem>)
    ensures FlatIDs(PageBatches(accountID, items)) == ContentIDs(items)
  {
    ChunksFlatten(items, MaxBatchWriteItem);
    ToRequestsIDs(accountID, Chunks(items, MaxBatchWriteItem));
  }

  /** CollectContentIDs: the loop gathering the content IDs of one chunk. */
  method CollectContentIDs(chunk: seq<ContentItem>) returns (ids: seq<string>)
    ensures ids == ContentIDs(chunk)
  {
    ids := [];
    var i := 0;
    while i < |chunk|
      invariant 0 <= i <= |chunk|
      invariant |ids| == i && forall k :: 0 <= k < i ==> ids[k] == chunk[k].contentID
    {
      ids := ids + [chunk[i].contentID];
      i := i + 1;
    }
    ContentIDsIndex(chunk);
    assert ids == ContentIDs(chunk);
  }

  /** Splits one page into chunks of 25 and sends a batch per chunk. */
  method PublishPage(accountID: string, items: seq<ContentItem>, ch: WorkChannel)
    modifies ch
    ensures ch.sent == old(ch.sent) + PageBatches(accountID, items)
  {
    var chunks := SplitSlice(items, MaxBatchWriteItem);
    var j := 0;
    while j < |chunks|
      invariant 0 <= j <= |chunks|
      invariant ch.sent == old(ch.sent) + ToRequests(accountID, chunks[..j])
    {
      var contentIDs := CollectContentIDs(chunks[j]);
      ch.Send(DeleteItemRequest(accountID, contentIDs));
      assert ToRequests(accountID, chunks[..j + 1]) == ToRequests(accountID, chunks[..j]) + [DeleteItemRequest(accountID, contentIDs)];
      j := j + 1;
    }
    assert chunks[..j] == chunks;
  }

  /** The per-page body both producers share: unmarshal the page's items,
      stopping with the decode error, else send the page's batches. */
  method HandlePage(accountID: string, raw: seq<RawItem>, ch: WorkChannel) returns (err: Option<Error>)
    modifies ch
    ensures Unmarshal(raw).Failure? ==> err == Some(Unmarshal(raw).error) && ch.sent == old(ch.sent)
    ensures Unmarshal(raw).Success? ==> err.None? && ch.sent == old(ch.sent) + PageBatches(accountID, Unmarshal(raw).value)
  {
    var decoded := Unmarshal(raw);
    if decoded.Failure? {
      return Some(decoded.error);
    }
    PublishPage(accountID, decoded.value, ch);
    return None;
  }

  // ----------------------------------------------------- the producer spec

  /** A reply's items once unmarshalled, or the error that stops the scan. */
  function Decoded(r: PageResponse): (d: Result<seq<ContentItem>>)
    ensures d.Success? ==> r.Output?
  {
    match r
    case Failed(e) => Failure(e)
    case Output(raw, _) => Unmarshal(raw)
  }

  /** What a per-page producer does from the Query call numbered `n` on: the
      batches it sends, in order, the number of Query calls it makes and the
      error it returns. */
  datatype Scan = Scan(sent: seq<DeleteItemRequest>, queries: nat, err: Option<Error>)

  /** A reply that is sent on and is followed by another page. */
  predicate Continues(r: PageResponse)
  {
    Decoded(r).Success? && LastKey(r).Some?
  }

  /** The items of a reply that unmarshals (none otherwise). */
  function PageItems(r: PageResponse): seq<ContentItem>
  {
    if Decoded(r).Success? then Decoded(r).value else []
  }

  /** The batches of one reply, if it unmarshals. */
  function PageBatchesOf(accountID: string, r: PageResponse): seq<DeleteItemRequest>
  {
    if Decoded(r).Success? then PageBatches(accountID, Decoded(r).value) else []
  }

  /** Each page in turn: stop with its error if the query or the unmarshalling
      fails; otherwise send its batches, then stop if it has no continuation
      key or go on with the next page. */
  function ProducerScan(accountID: string, pages: seq<PageResponse>, n: nat): Scan
    decreases |pages| - n
  {
    var r := Reply(pages, n);
    match Decoded(r)
    case Failure(e) => Scan([], 1, Some(e))
    case Success(items) =>
      if LastKey(r).None? then Scan(PageBatches(accountID, items), 1, None)
      else
        var rest := ProducerScan(accountID, pages, n + 1);
        Scan(PageBatches(accountID, items) + rest.sent, rest.queries + 1, rest.err)
  }

  /** The items of the `count` replies from call n on. */
  function PagesRead(pages: seq<PageResponse>, n: nat, count: nat): seq<seq<ContentItem>>
  {
    seq(count, j requires 0 <= j < count => PageItems(Reply(pages, n + j)))
  }

  lemma PagesReadCons(pages: seq<PageResponse>, n: nat, count: nat)
    requires count > 0
    ensures PagesRead(pages, n, count) == [PageItems(Reply(pages, n))] + PagesRead(pages, n + 1, count - 1)
  {
    var a, b := PagesRead(pages, n, count), [PageItems(Reply(pages, n))] + PagesRead(pages, n + 1, count - 1);
    forall j | 0 <= j < count ensures a[j] == b[j] {
      if j > 0 { assert b[j] == PagesRead(pages, n + 1, count - 1)[j - 1]; }
    }
  }

  /** The batches sent for the pages `ps`, page after page. */
  function Batches(accountID: string, ps: seq<seq<ContentItem>>): seq<DeleteItemRequest>
  {
    if ps == [] then [] else Batches(accountID, ps[..|ps| - 1]) + PageBatches(accountID, ps[|ps| - 1])
  }

  lemma {:induction false} BatchesCons(accountID: string, p: seq<ContentItem>, ps: seq<seq<ContentItem>>)
    ensures Batches(accountID, [p] + ps) == PageBatches(accountID, p) + Batches(accountID, ps)
    decreases |ps|
  {
    var all := [p] + ps;
    if ps == [] {
      assert all[..0] == [];
    } else {
      var init := ps[..|ps| - 1];
      BatchesCons(accountID, p, init);
      assert all[..|all| - 1] == [p] + init;
      assert all[|all| - 1] == ps[|ps| - 1];
    }
  }

  /** Every batch sent for any pages is of the account and holds 1 to 25 IDs. */
  lemma {:induction false} BatchesWellFormed(accountID: string, ps: seq<seq<ContentItem>>)
    ensures forall b :: b in Batches(accountID, ps) ==> WellFormedBatch(accountID, b)
    decreases |ps|
  {
    if ps != [] {
      BatchesWellFormed(accountID, ps[..|ps| - 1]);
      PageBatchesWellFormed(accountID, ps[|ps| - 1]);
    }
  }

  /** The batches sent for some pages carry those pages' content IDs, in order. */
  lemma {:induction false} BatchesIDs(accountID: string, ps: seq<seq<ContentItem>>)
    ensures FlatIDs(Batches(accountID, ps)) == ContentIDs(Flatten(ps))
    decreases |ps|
  {
    if ps != [] {
      var init, last := ps[..|ps| - 1], ps[|ps| - 1];
      BatchesIDs(accountID, init);
      PageBatchesIDs(accountID, last);
      FlatIDsAppend(Batches(accountID, init), PageBatches(accountID, last));
      assert ps == init + [last];
      FlattenSnoc(init, last);
      ContentIDsAppend(Flatten(init), last);
    } else {
      assert ContentIDs([]) == [];
    }
  }

  /** How many pages a finished scan sent: all it queried on success, all
      but the failing one otherwise. */
  function PagesSent(s: Scan): nat
  {
    if s.err.None? || s.queries == 0 then s.queries else s.queries - 1
  }

  /** The scan's outcome in terms of its pages: it queries the pages n to
      `last` in order; every page before `last` unmarshals and has a
      continuation key; it succeeds exactly when page `last` unmarshals (and
      then `last` has no continuation key), and otherwise returns that page's
      error. */
  lemma {:induction false} ProducerScanOutcome(accountID: string, pages: seq<PageResponse>, n: nat)
    ensures var s := ProducerScan(accountID, pages, n);
      var last := n + s.queries - 1;
      s.queries >= 1 &&
      (forall j :: n <= j < last ==> Continues(Reply(pages, j))) &&
      (s.err.None? <==> Decoded(Reply(pages, last)).Success?) &&
      (s.err.None? ==> LastKey(Reply(pages, last)).None?) &&
      (s.err.Some? ==> s.err == Some(Decoded(Reply(pages, last)).error))
    decreases |pages| - n
  {
    if Continues(Reply(pages, n)) {
      ProducerScanOutcome(accountID, pages, n + 1);
    }
  }

  /** The scan sends the batches of the pages it read, page after page and
      chunk after chunk: all pages it queried on success, all but the
      failing one otherwise. */
  lemma {:induction false} ProducerScanSent(accountID: string, pages: seq<PageResponse>, n: nat)
    ensures var s := ProducerScan(accountID, pages, n);
      s.sent == Batches(accountID, PagesRead(pages, n, PagesSent(s)))
    decreases |pages| - n
  {
    var r := Reply(pages, n);
    var s := ProducerScan(accountID, pages, n);
    if Continues(r) {
      ProducerScanSent(accountID, pages, n + 1);
      var rest := ProducerScan(accountID, pages, n + 1);
      var m := PagesSent(rest);
      ProducerScanOutcome(accountID, pages, n + 1);
      assert PagesSent(s) == m + 1;
      PagesReadCons(pages, n, m + 1);
      BatchesCons(accountID, PageItems(r), PagesRead(pages, n + 1, m));
    } else if Decoded(r).Success? {
      assert PagesRead(pages, n, 1) == [PageItems(r)];
      assert [PageItems(r)][..0] == [];
    } else {
      assert PagesRead(pages, n, 0) == [];
    }
  }

  /** Every batch a producer sends is of the account and holds 1 to 25 IDs. */
  lemma ProducerBatchesWellFormed(accountID: string, pages: seq<PageResponse>, n: nat)
    ensures forall b :: b in ProducerScan(accountID, pages, n).sent ==> WellFormedBatch(accountID, b)
  {
    var s := ProducerScan(accountID, pages, n);
    ProducerScanSent(accountID, pages, n);
    BatchesWellFormed(accountID, PagesRead(pages, n, PagesSent(s)));
  }

  /** Batch boundaries restart at every page: thirty items in three pages of
      ten give three batches, in one page of thirty two batches. */
  lemma PagingChangesBatchCount(accountID: string, item: ContentItem, k1: Key, k2: Key)
    ensures var ten := seq(10, _ => Decodable(item));
      var thirty := seq(30, _ => Decodable(item));
      |ProducerScan(accountID, [Output(ten, Some(k1)), Output(ten, Some(k2)), Output(ten, None)], 0).sent| == 3 &&
      |ProducerScan(accountID, [Output(thirty, None)], 0).sent| == 2
  {
    var ten := seq(10, _ => Decodable(item));
    var thirty := seq(30, _ => Decodable(item));
    var paged := [Output(ten, Some(k1)), Output(ten, Some(k2)), Output(ten, None)];
    UnmarshalSpec(ten);
    UnmarshalSpec(thirty);
    var b10 := PageBatches(accountID, Unmarshal(ten).value);
    PageBatchesCount(accountID, Unmarshal(ten).value);
    PageBatchesCount(accountID, Unmarshal(thirty).value);
    assert ProducerScan(accountID, paged, 2).sent == b10;
    assert ProducerScan(accountID, paged, 1).sent == b10 + b10;
    assert ProducerScan(accountID, paged, 0).sent == b10 + (b10 + b10);
  }

  /** The exclusive start key of the j-th query of a scan that began at call n:
      none at first, then the previous page's continuation key. */
  function StartKey(pages: seq<PageResponse>, n: nat, j: nat): Option<Key>
  {
    if j == 0 then None else LastKey(Reply(pages, n + j - 1))
  }

  /** The query a scan that began at call n issues as its j-th. */
  function NthQuery(tableName: string, accountID: string, pages: seq<PageResponse>, n: nat, j: nat): QueryInput
  {
    QueryInputFor(tableName, accountID).(exclusiveStartKey := StartKey(pages, n, j))
  }

  /** The queries a scan of `count` pages issues, in order. */
  function QueryLog(tableName: string, accountID: string, pages: seq<PageResponse>, n: nat, count: nat): seq<QueryInput>
  {
    seq(count, j requires 0 <= j < count => NthQuery(tableName, accountID, pages, n, j))
  }

  /** A scan's queries all select the account's content records and differ
      only in where they start: the first at the beginning, each later one
      at the continuation key of the page before it. */
  lemma QueryLogShape(tableName: string, accountID: string, pages: seq<PageResponse>, n: nat, count: nat)
    ensures |QueryLog(tableName, accountID, pages, n, count)| == count
    ensures forall j :: 0 <= j < count ==>
      var q := QueryLog(tableName, accountID, pages, n, count)[j];
      q == QueryInputFor(tableName, accountID).(exclusiveStartKey := q.exclusiveStartKey) &&
      q.exclusiveStartKey == (if j == 0 then None else LastKey(Reply(pages, n + j - 1)))
  {
  }

  // ----------------------------------------------- the collect-all fetch spec

  /** What FetchItemsSeqNoSplit gathers from the Query call numbered `n` on. */
  datatype Collected = Collected(raw: seq<RawItem>, queries: nat, err: Option<Error>)

  function CollectPages(pages: seq<PageResponse>, n: nat): Collected
    decreases |pages| - n
  {
    match Reply(pages, n)
    case Failed(e) => Collected([], 1, Some(e))
    case Output(raw, last) =>
      if last.None? then Collected(raw, 1, None)
      else
        var rest := CollectPages(pages, n + 1);
        Collected(raw + rest.raw, rest.queries + 1, rest.err)
  }

  /** `whole` is `raw` followed by `rest`, after `k` queries. */
  ghost predicate CollectSplits(whole: Collected, raw: seq<RawItem>, k: nat, rest: Collected)
  {
    whole.raw == raw + rest.raw && whole.queries == k + rest.queries && whole.err == rest.err
  }

  /** Collecting stops at a failed query with its error. */
  lemma CollectStopsOnError(pages: seq<PageResponse>, whole: Collected, raw: seq<RawItem>, c: nat, k: nat)
    requires CollectSplits(whole, raw, c, CollectPages(pages, k))
    requires Reply(pages, k).Failed?
    ensures whole.queries == c + 1 && whole.err == Some(Reply(pages, k).error)
  {
  }

  /** Collecting stops at a last page, with its items added. */
  lemma CollectStopsOnLastPage(pages: seq<PageResponse>, whole: Collected, raw: seq<RawItem>, c: nat, k: nat)
    requires CollectSplits(whole, raw, c, CollectPages(pages, k))
    requires Reply(pages, k).Output? && Reply(pages, k).lastEvaluatedKey.None?
    ensures whole.raw == raw + Reply(pages, k).items && whole.queries == c + 1 && whole.err.None?
  {
  }

  /** Past a page with a continuation key, collecting goes on from query k + 1. */
  lemma CollectAdvances(pages: seq<PageResponse>, whole: Collected, raw: seq<RawItem>, c: nat, k: nat)
    requires CollectSplits(whole, raw, c, CollectPages(pages, k))
    requires Reply(pages, k).Output? && Reply(pages, k).lastEvaluatedKey.Some?
    ensures CollectSplits(whole, raw + Reply(pages, k).items, c + 1, CollectPages(pages, k + 1))
  {
    var r := Reply(pages, k);
    assert raw + r.items + CollectPages(pages, k + 1).raw == raw + (r.items + CollectPages(pages, k + 1).raw);
  }

  /** The result of FetchItemsSeqNoSplit: the first query error, else all
      pages' items unmarshalled together. */
  function NoSplitResult(pages: seq<PageResponse>, n: nat): Result<seq<ContentItem>>
  {
    var c := CollectPages(pages, n);
    if c.err.Some? then Failure(c.err.value) else Unmarshal(c.raw)
  }

  /** The per-page producers and the collecting fetch agree: one succeeds
      exactly when the other does, over the same queries, and then the pages
      the producer sends are exactly the collected items, in order, so its
      batches carry exactly their content IDs. */
  lemma {:induction false} NoSplitAgreesWithProducer(accountID: string, pages: seq<PageResponse>, n: nat)
    ensures NoSplitResult(pages, n).Success? <==> ProducerScan(accountID, pages, n).err.None?
    ensures NoSplitResult(pages, n).Success? ==>
      var s := ProducerScan(accountID, pages, n);
      CollectPages(pages, n).queries == s.queries &&
      Flatten(PagesRead(pages, n, s.queries)) == NoSplitResult(pages, n).value &&
      FlatIDs(s.sent) == ContentIDs(NoSplitResult(pages, n).value)
  {
    NoSplitPages(accountID, pages, n);
    var s := ProducerScan(accountID, pages, n);
    ProducerScanSent(accountID, pages, n);
    BatchesIDs(accountID, PagesRead(pages, n, PagesSent(s)));
  }

  lemma {:induction false} NoSplitPages(accountID: string, pages: seq<PageResponse>, n: nat)
    ensures NoSplitResult(pages, n).Success? <==> ProducerScan(accountID, pages, n).err.None?
    ensures NoSplitResult(pages, n).Success? ==>
      CollectPages(pages, n).queries == ProducerScan(accountID, pages, n).queries &&
      Flatten(PagesRead(pages, n, ProducerScan(accountID, pages, n).queries)) == NoSplitResult(pages, n).value
    decreases |pages| - n
  {
    var r := Reply(pages, n);
    if r.Output? {
      var d := Unmarshal(r.items);
      if r.lastEvaluatedKey.None? {
        if d.Success? {
          assert PagesRead(pages, n, 1) == [d.value];
          assert Flatten([d.value]) == d.value + Flatten([]);
        }
      } else {
        NoSplitPages(accountID, pages, n + 1);
        var rest := CollectPages(pages, n + 1);
        if rest.err.None? {
          UnmarshalAppend(r.items, rest.raw);
          if d.Success? && Unmarshal(rest.raw).Success? {
            var q := ProducerScan(accountID, pages, n + 1).queries;
            PagesReadCons(pages, n, q + 1);
            var ps := PagesRead(pages, n, q + 1);
            assert ps[0] == d.value && ps[1..] == PagesRead(pages, n + 1, q);
          }
        }
      }
    }
  }

  /** The loop of WriteItems building one chunk's put requests. */
  method BuildPutRequests(chunk: seq<ContentItem>, now: string) returns (writeRequests: seq<WriteRequest>)
    ensures writeRequests == PutRequests(chunk, now)
    ensures |writeRequests| == |chunk|
  {
    writeRequests := [];
    var i := 0;
    while i < |chunk|
      invariant 0 <= i <= |chunk|
      invariant |writeRequests| == i
      invariant forall k :: 0 <= k < i ==> writeRequests[k] == Put(PutItem(chunk[k], now))
    {
      writeRequests := writeRequests + [Put(PutItem(chunk[i], now))];
      i := i + 1;
    }
    PutRequestsIndex(chunk, now);
    assert writeRequests == PutRequests(chunk, now);
  }

  /** `whole` sends `done`, then what `rest` sends, after `k` queries. */
  ghost predicate ScanSplits(whole: Scan, done: seq<DeleteItemRequest>, k: nat, rest: Scan)
  {
    whole.sent == done + rest.sent && whole.queries == k + rest.queries && whole.err == rest.err
  }

  /** One step of a scan whose remainder starts at query k: a reply that does
      not unmarshal ends it with that reply's error; a last page ends it with
      that page's batches; any other page moves the remainder to query k + 1. */
  lemma ScanStep(accountID: string, pages: seq<PageResponse>, whole: Scan, done: seq<DeleteItemRequest>, c: nat, k: nat)
    requires ScanSplits(whole, done, c, ProducerScan(accountID, pages, k))
    ensures var r := Reply(pages, k);
      (Decoded(r).Failure? ==> whole.sent == done && whole.queries == c + 1 && whole.err == Some(Decoded(r).error)) &&
      (Decoded(r).Success? && LastKey(r).None? ==>
         whole.sent == done + PageBatchesOf(accountID, r) && whole.queries == c + 1 && whole.err.None?) &&
      (Continues(r) ==> ScanSplits(whole, done + PageBatchesOf(accountID, r), c + 1, ProducerScan(accountID, pages, k + 1)))
  {
  }

  /** The next query starts at the continuation key of the reply to this one. */
  lemma NthQueryNext(tableName: string, accountID: string, pages: seq<PageResponse>, n: nat, c: nat)
    ensures NthQuery(tableName, accountID, pages, n, c + 1)
         == NthQuery(tableName, accountID, pages, n, c).(exclusiveStartKey := LastKey(Reply(pages, n + c)))
  {
  }

  lemma QueryLogSnoc(tableName: string, accountID: string, pages: seq<PageResponse>, n: nat, count: nat, prefix: seq<QueryInput>)
    ensures prefix + QueryLog(tableName, accountID, pages, n, count) + [NthQuery(tableName, accountID, pages, n, count)]
         == prefix + QueryLog(tableName, accountID, pages, n, count + 1)
  {
    assert QueryLog(tableName, accountID, pages, n, count) + [NthQuery(tableName, accountID, pages, n, count)]
        == QueryLog(tableName, accountID, pages, n, count + 1);
  }

  // ------------------------------------------------------------ the service

  /** DDBService: a DynamoDB client and the table it works on. The key
      prefixes it is built with are the constants above. */
  class DDBService {
    const client: Client
    const tableName: string

    constructor (client: Client, tableName: string)
      ensures this.client == client && this.tableName == tableName
    {
      this.client := client;
      this.tableName := tableName;
    }

    /** DeleteAll: more than 25 IDs is refused before any store call;
        otherwise one BatchWriteItem deletes one key per ID, in order. */
    method DeleteAll(req: DeleteItemRequest) returns (err: Option<Error>)
      modifies client`items, client`writes
      ensures |req.contentIDs| > MaxBatchWriteItem ==>
        err == Some(TooManyDeletes(|req.contentIDs|)) &&
        client.writes == old(client.writes) && client.items == old(client.items)
      ensures |req.contentIDs| <= MaxBatchWriteItem ==>
        var requests := DeleteRequests(req.accountID, req.contentIDs);
        client.writes == old(client.writes) + [BatchCall(tableName, requests)] &&
        err == CallError(client.failing, |old(client.writes)|, requests) &&
        client.items == if err.None? then old(client.items) - IdKeys(req.accountID, req.contentIDs)
                        else old(client.items)
    {
      if |req.contentIDs| > MaxBatchWriteItem {
        return Some(TooManyDeletes(|req.contentIDs|));
      }
      var writeRequests: seq<WriteRequest> := [];
      var i := 0;
      while i < |req.contentIDs|
        invariant 0 <= i <= |req.contentIDs|
        invariant |writeRequests| == i
        invariant forall k :: 0 <= k < i ==> writeRequests[k] == Delete(ContentKey(req.accountID, req.contentIDs[k]))
      {
        writeRequests := writeRequests + [Delete(ContentKey(req.accountID, req.contentIDs[i]))];
        i := i + 1;
      }
      DeleteRequestsIndex(req.accountID, req.contentIDs);
      assert writeRequests == DeleteRequests(req.accountID, req.contentIDs);
      err := client.BatchWriteItem(tableName, writeRequests);
      ApplyDeletes(old(client.items), writeRequests);
      DeleteRequestsKeys(req.accountID, req.contentIDs);
    }

    /** The body of WriteItems' loop: one BatchWriteItem call putting the
        items of one chunk; `batch` names its put requests. */
    method WriteChunk(chunk: seq<ContentItem>, now: string, ghost batch: seq<WriteRequest>) returns (err: Option<Error>)
      requires batch == PutRequests(chunk, now)
      modifies client`items, client`writes
      ensures client.writes == old(client.writes) + [BatchCall(tableName, batch)]
      ensures err == CallError(client.failing, |old(client.writes)|, batch)
      ensures client.items == if err.None? then Apply(old(client.items), batch) else old(client.items)
    {
      var writeRequests := BuildPutRequests(chunk, now);
      err := client.BatchWriteItem(tableName, writeRequests);
    }

    /** WriteItems: one BatchWriteItem of puts per chunk of 25, stopping at
        the first failing call. With k the number of calls that succeed, the
        calls for the first k chunks and the failing one are made, that call's
        error is returned, and the puts of the first k chunks are applied. */
    method WriteItems(items: seq<ContentItem>, now: string) returns (err: Option<Error>)
      modifies client`items, client`writes
      ensures var batches := PutBatches(Chunks(items, MaxBatchWriteItem), now);
        var k := Succeeding(client.failing, |old(client.writes)|, batches);
        client.writes == old(client.writes) + Calls(tableName, batches[..Issued(k, |batches|)]) &&
        err == (if k < |batches| then CallError(client.failing, |old(client.writes)| + k, batches[k]) else None) &&
        client.items == Apply(old(client.items), Flatten(batches[..k]))
    {
      var chunks := SplitSlice(items, MaxBatchWriteItem);
      err := WriteChunks(chunks, now, PutBatches(chunks, now));
    }

    /** The loop of WriteItems over its chunks. */
    method WriteChunks(chunks: seq<seq<ContentItem>>, now: string, ghost batches: seq<seq<WriteRequest>>)
      returns (err: Option<Error>)
      requires |batches| == |chunks|
      requires forall j :: 0 <= j < |chunks| ==> batches[j] == PutRequests(chunks[j], now)
      modifies client`items, client`writes
      ensures var k := Succeeding(client.failing, |old(client.writes)|, batches);
        client.writes == old(client.writes) + Calls(tableName, batches[..Issued(k, |batches|)]) &&
        err == (if k < |batches| then CallError(client.failing, |old(client.writes)| + k, batches[k]) else None) &&
        client.items == Apply(old(client.items), Flatten(batches[..k]))
    {
      ghost var w0 := |client.writes|;
      ghost var applied: seq<WriteRequest> := [];
      var j := 0;
      while j < |chunks|
        invariant 0 <= j <= |chunks|
        invariant forall i :: 0 <= i < j ==> CallError(client.failing, w0 + i, batches[i]).None?
        invariant client.writes == old(client.writes) + Calls(tableName, batches[..j])
        invariant applied == Flatten(batches[..j])
        invariant client.items == Apply(old(client.items), applied)
      {
        err := WriteChunk(chunks[j], now, batches[j]);
        assert Calls(tableName, batches[..j + 1]) == Calls(tableName, batches[..j]) + [BatchCall(tableName, batches[j])];
        if err.Some? {
          SucceedingExact(client.failing, w0, batches, j);
          return;
        }
        FlattenTake(batches, j);
        ApplyAppend(old(client.items), applied, batches[j]);
        applied := applied + batches[j];
        j := j + 1;
      }
      SucceedingExact(client.failing, w0, batches, j);
      assert batches[..j] == batches;
      err := None;
    }

    /** The body both producers repeat: one Query call, then the page's
        items unmarshalled and its batches sent. The continuation key is
        returned with the page, and the error of whichever step failed. */
    method ProducePage(accountID: string, q: QueryInput, ch: WorkChannel) returns (lastKey: Option<Key>, err: Option<Error>)
      modifies client`queries, ch
      ensures client.queries == old(client.queries) + [q]
      ensures var r := Reply(client.pages, |old(client.queries)|);
        err == (if Decoded(r).Failure? then Some(Decoded(r).error) else None) &&
        lastKey == LastKey(r) &&
        ch.sent == old(ch.sent) + PageBatchesOf(accountID, r)
    {
      var output := client.Query(q);
      if output.Failed? {
        return None, Some(output.error);
      }
      lastKey := output.lastEvaluatedKey;
      err := HandlePage(accountID, output.items, ch);
    }

    /** ProducePage as one step of a scan from the Query call numbered k:
        `whole` is the scan from the start, whose batches `done` have been
        sent after `base` in its first c pages. The step either ends the scan
        (on an error or a last page) or leaves the scan's remainder starting
        at call k + 1; `done'` is what has been sent once it returns. */
    method ScanPage(accountID: string, q: QueryInput, ch: WorkChannel, ghost whole: Scan,
                    ghost base: seq<DeleteItemRequest>, ghost done: seq<DeleteItemRequest>, ghost c: nat)
      returns (lastKey: Option<Key>, err: Option<Error>, ghost done': seq<DeleteItemRequest>)
      requires ch.sent == base + done
      requires ScanSplits(whole, done, c, ProducerScan(accountID, client.pages, |client.queries|))
      modifies client`queries, ch
      ensures client.queries == old(client.queries) + [q]
      ensures ch.sent == base + done'
      ensures lastKey == LastKey(Reply(client.pages, |old(client.queries)|))
      ensures err.Some? || lastKey.None? ==> whole == Scan(done', c + 1, err)
      ensures err.None? && lastKey.Some? ==>
        |old(client.queries)| < |client.pages| &&
        ScanSplits(whole, done', c + 1, ProducerScan(accountID, client.pages, |old(client.queries)| + 1))
    {
      ghost var k := |client.queries|;
      ghost var page := PageBatchesOf(accountID, Reply(client.pages, k));
      ScanStep(accountID, client.pages, whole, done, c, k);
      lastKey, err := ProducePage(accountID, q, ch);
      done' := done + page;
      assert ch.sent == base + done';
    }

    /** FetchItemsSeqChannel: query page after page, resuming from each
        continuation key, and send each page's batches before the next query. */
    method FetchItemsSeqChannel(accountID: string, ch: WorkChannel) returns (items: seq<ContentItem>, err: Option<Error>)
      modifies client`queries, ch
      ensures items == []
      ensures var s := ProducerScan(accountID, client.pages, |old(client.queries)|);
        ch.sent == old(ch.sent) + s.sent && err == s.err &&
        client.queries == old(client.queries) + QueryLog(tableName, accountID, client.pages, |old(client.queries)|, s.queries)
    {
      items := [];
      ghost var n0 := |client.queries|;
      ghost var pages := client.pages;
      ghost var whole := ProducerScan(accountID, pages, n0);
      ghost var done: seq<DeleteItemRequest> := [];
      var queryInput := QueryInputFor(tableName, accountID);
      ghost var c := 0;
      while true
        invariant |client.queries| == n0 + c
        invariant queryInput == NthQuery(tableName, accountID, pages, n0, c)
        invariant client.queries == old(client.queries) + QueryLog(tableName, accountID, pages, n0, c)
        invariant ch.sent == old(ch.sent) + done
        invariant ScanSplits(whole, done, c, ProducerScan(accountID, pages, n0 + c))
        decreases |pages| - c
      {
        QueryLogSnoc(tableName, accountID, pages, n0, c, old(client.queries));
        var lastKey;
        lastKey, err, done := ScanPage(accountID, queryInput, ch, whole, old(ch.sent), done, c);
        if err.Some? {
          return;
        }
        if lastKey.None? {
          return;
        }
        NthQueryNext(tableName, accountID, pages, n0, c);
        c := c + 1;
        queryInput := queryInput.(exclusiveStartKey := lastKey);
      }
    }

    /** FetchItemsSeqPaginator: the same producer driven by a query
        paginator, which has more pages before the first one and while the
        last page returned a continuation key. */
    method FetchItemsSeqPaginator(accountID: string, ch: WorkChannel) returns (items: seq<ContentItem>, err: Option<Error>)
      modifies client`queries, ch
      ensures items == []
      ensures var s := ProducerScan(accountID, client.pages, |old(client.queries)|);
        ch.sent == old(ch.sent) + s.sent && err == s.err &&
        client.queries == old(client.queries) + QueryLog(tableName, accountID, client.pages, |old(client.queries)|, s.queries)
    {
      items := [];
      ghost var n0 := |client.queries|;
      ghost var pages := client.pages;
      ghost var whole := ProducerScan(accountID, pages, n0);
      ghost var done: seq<DeleteItemRequest> := [];
      var queryInput := QueryInputFor(tableName, accountID);
      var firstPage := true;
      var nextToken: Option<Key> := None;
      ghost var c := 0;
      while firstPage || nextToken.Some?
        invariant |client.queries| == n0 + c
        invariant firstPage <==> c == 0
        invariant nextToken == StartKey(pages, n0, c)
        invariant client.queries == old(client.queries) + QueryLog(tableName, accountID, pages, n0, c)
        invariant ch.sent == old(ch.sent) + done
        invariant firstPage || nextToken.Some? ==> ScanSplits(whole, done, c, ProducerScan(accountID, pages, n0 + c))
        invariant !(firstPage || nextToken.Some?) ==> whole == Scan(done, c, None)
        decreases |pages| - c
      {
        QueryLogSnoc(tableName, accountID, pages, n0, c, old(client.queries));
        firstPage := false;
        nextToken, err, done := ScanPage(accountID, queryInput.(exclusiveStartKey := nextToken), ch, whole, old(ch.sent), done, c);
        if err.Some? {
          return;
        }
        c := c + 1;
      }
      err := None;
    }

    /** FetchItemsSeqNoSplit: query page after page, collecting every page's
        items, and unmarshal them all once the last page is in. */
    method FetchItemsSeqNoSplit(accountID: string) returns (items: seq<ContentItem>, err: Option<Error>)
      modifies client`queries
      ensures var c := CollectPages(client.pages, |old(client.queries)|);
        client.queries == old(client.queries) + QueryLog(tableName, accountID, client.pages, |old(client.queries)|, c.queries)
      ensures match NoSplitResult(client.pages, |old(client.queries)|)
        case Success(v) => items == v && err.None?
        case Failure(e) => items == [] && err == Some(e)
    {
      ghost var n0 := |client.queries|;
      ghost var pages := client.pages;
      ghost var whole := CollectPages(pages, n0);
      var raw: seq<RawItem> := [];
      var queryInput := QueryInputFor(tableName, accountID);
      ghost var c := 0;
      while true
        invariant |client.queries| == n0 + c
        invariant queryInput == NthQuery(tableName, accountID, pages, n0, c)
        invariant client.queries == old(client.queries) + QueryLog(tableName, accountID, pages, n0, c)
        invariant CollectSplits(whole, raw, c, CollectPages(pages, n0 + c))
        decreases |pages| - c
      {
        QueryLogSnoc(tableName, accountID, pages, n0, c, old(client.queries));
        var output := client.Query(queryInput);
        if output.Failed? {
          CollectStopsOnError(pages, whole, raw, c, n0 + c);
          return [], Some(output.error);
        }
        ghost var before := raw;
        raw := raw + output.items;
        if output.lastEvaluatedKey.None? {
          CollectStopsOnLastPage(pages, whole, before, c, n0 + c);
          break;
        }
        CollectAdvances(pages, whole, before, c, n0 + c);
        NthQueryNext(tableName, accountID, pages, n0, c);
        c := c + 1;
        queryInput := queryInput.(exclusiveStartKey := output.lastEvaluatedKey);
      }
      var decoded := Unmarshal(raw);
      if decoded.Failure? {
        return [], Some(decoded.error);
      }
      return decoded.value, None;
    }
  }
}
