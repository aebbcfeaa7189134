/** The single-threaded deletion worker (service/worker.go): receive a
    deletion message, fetch the account's content records, and delete them
    25 at a time, stopping at the first failing deletion. */
module Worker {
  import opened Model
  import opened Utils
  import opened Store
  import opened Database

  /** The delete requests of one DeleteAll call per chunk, in order. */
  function DeleteBatches(accountID: string, chunks: seq<seq<ContentItem>>): seq<seq<WriteRequest>>
  {
    seq(|chunks|, j requires 0 <= j < |chunks| => DeleteRequests(accountID, ContentIDs(chunks[j])))
  }

  /** No chunk of 25 is too large for DeleteAll or for the store. */
  lemma ChunksWithinLimit(items: seq<ContentItem>)
    ensures forall j :: 0 <= j < |Chunks(items, MaxBatchWriteItem)| ==> 0 < |Chunks(items, MaxBatchWriteItem)[j]| <= MaxBatchWriteItem
  {
    ChunksShape(items, MaxBatchWriteItem);
  }

  /** ProcessSingleThread never trips DeleteAll's ceiling and never sends
      an empty batch or one over the store's ceiling: the store refuses one
      of its calls only when the chunk repeats a content ID, and otherwise
      the call fails only as a write failure. */
  lemma DeletionsNeverRejected(failing: map<nat, string>, n: nat, accountID: string, items: seq<ContentItem>)
    ensures var chunks := Chunks(items, MaxBatchWriteItem);
      var batches := DeleteBatches(accountID, chunks);
      forall j :: 0 <= j < |batches| ==>
        |ContentIDs(chunks[j])| <= MaxBatchWriteItem &&
        0 < |batches[j]| <= BatchWriteLimit &&
        CallError(failing, n + j, batches[j]) ==
          if !DistinctIDs(ContentIDs(chunks[j])) then Some(BatchInvalid(RepeatedKey))
          else if n + j in failing then Some(BatchWriteFailed(failing[n + j]))
          else None
  {
    var chunks := Chunks(items, MaxBatchWriteItem);
    ChunksShape(items, MaxBatchWriteItem);
    forall j | 0 <= j < |chunks|
      ensures |ContentIDs(chunks[j])| <= MaxBatchWriteItem
      ensures 0 < |DeleteRequests(accountID, ContentIDs(chunks[j]))| <= BatchWriteLimit
      ensures DuplicateKeys(DeleteRequests(accountID, ContentIDs(chunks[j]))) <==> !DistinctIDs(ContentIDs(chunks[j]))
    {
      ContentIDsIndex(chunks[j]);
      DeleteRequestsIndex(accountID, ContentIDs(chunks[j]));
      DeleteRequestsDuplicates(accountID, ContentIDs(chunks[j]));
    }
  }

  lemma {:induction false} DeleteRequestsAppend(accountID: string, a: seq<string>, b: seq<string>)
    ensures DeleteRequests(accountID, a + b) == DeleteRequests(accountID, a) + DeleteRequests(accountID, b)
    decreases |a|
  {
    if a == [] {
      assert a + b == b;
    } else {
      assert (a + b)[1..] == a[1..] + b;
      DeleteRequestsAppend(accountID, a[1..], b);
    }
  }

  /** Deleting chunk after chunk issues the delete requests of all the IDs, in order. */
  lemma {:induction false} DeleteBatchesFlatten(accountID: string, chunks: seq<seq<ContentItem>>)
    ensures Flatten(DeleteBatches(accountID, chunks)) == DeleteRequests(accountID, ContentIDs(Flatten(chunks)))
    decreases |chunks|
  {
    if chunks == [] {
      assert ContentIDs([]) == [];
    } else {
      assert DeleteBatches(accountID, chunks)[1..] == DeleteBatches(accountID, chunks[1..]);
      DeleteBatchesFlatten(accountID, chunks[1..]);
      ContentIDsAppend(chunks[0], Flatten(chunks[1..]));
      DeleteRequestsAppend(accountID, ContentIDs(chunks[0]), ContentIDs(Flatten(chunks[1..])));
    }
  }

  /** Once every DeleteAll call has succeeded, exactly the fetched records
      are gone from the table and every other item is as it was. */
  lemma DeleteBatchesRemoveAll(m: map<Key, StoredItem>, accountID: string, items: seq<ContentItem>)
    ensures Apply(m, Flatten(DeleteBatches(accountID, Chunks(items, MaxBatchWriteItem))))
         == m - IdKeys(accountID, ContentIDs(items))
  {
    var ids := ContentIDs(items);
    ChunksFlatten(items, MaxBatchWriteItem);
    DeleteBatchesFlatten(accountID, Chunks(items, MaxBatchWriteItem));
    DeleteRequestsIndex(accountID, ids);
    ApplyDeletes(m, DeleteRequests(accountID, ids));
    DeleteRequestsKeys(accountID, ids);
  }

  class Worker {
    const dbService: DDBService

    constructor (dbService: DDBService)
      ensures this.dbService == dbService
    {
      this.dbService := dbService;
    }

    /** The body of the chunk loop: collect the chunk's content IDs and
        delete them with one DeleteAll call. */
    method DeleteChunk(accountID: string, chunk: seq<ContentItem>) returns (err: Option<Error>)
      requires |chunk| <= MaxBatchWriteItem
      modifies dbService.client`items, dbService.client`writes
      ensures var requests := DeleteRequests(accountID, ContentIDs(chunk));
        dbService.client.writes == old(dbService.client.writes) + [BatchCall(dbService.tableName, requests)] &&
        err == CallError(dbService.client.failing, |old(dbService.client.writes)|, requests) &&
        dbService.client.items == if err.None? then Apply(old(dbService.client.items), requests)
                                  else old(dbService.client.items)
    {
      var contentIDs := CollectContentIDs(chunk);
      ContentIDsIndex(chunk);
      err := dbService.DeleteAll(DeleteItemRequest(accountID, contentIDs));
      DeleteRequestsIndex(accountID, contentIDs);
      ApplyDeletes(old(dbService.client.items), DeleteRequests(accountID, contentIDs));
      DeleteRequestsKeys(accountID, contentIDs);
    }

    /** ProcessSingleThread: a receive error or a fetch error is returned
        before any write; otherwise one DeleteAll per chunk of 25 fetched
        records, stopping at the first that fails. With k the number of
        calls that succeed, the calls for the first k chunks and the failing
        one are made, that call's error is returned, and the records of the
        first k chunks are deleted. */
    method ProcessSingleThread(received: Result<DeleteContentMessage>, fetch: string -> Result<seq<ContentItem>>)
      returns (err: Option<Error>)
      modifies dbService.client`items, dbService.client`writes
      ensures received.Failure? ==>
        err == Some(received.error) &&
        dbService.client.writes == old(dbService.client.writes) && dbService.client.items == old(dbService.client.items)
      ensures received.Success? && fetch(received.value.accountID).Failure? ==>
        err == Some(fetch(received.value.accountID).error) &&
        dbService.client.writes == old(dbService.client.writes) && dbService.client.items == old(dbService.client.items)
      ensures received.Success? && fetch(received.value.accountID).Success? ==>
        var accountID := received.value.accountID;
        var batches := DeleteBatches(accountID, Chunks(fetch(accountID).value, MaxBatchWriteItem));
        var k := Succeeding(dbService.client.failing, |old(dbService.client.writes)|, batches);
        dbService.client.writes == old(dbService.client.writes) + Calls(dbService.tableName, batches[..Issued(k, |batches|)]) &&
        err == (if k < |batches| then CallError(dbService.client.failing, |old(dbService.client.writes)| + k, batches[k]) else None) &&
        dbService.client.items == Apply(old(dbService.client.items), Flatten(batches[..k]))
    {
      if received.Failure? {
        return Some(received.error);
      }
      var accountID := received.value.accountID;
      var fetched := fetch(accountID);
      if fetched.Failure? {
        return Some(fetched.error);
      }
      var items := fetched.value;
      var chunks := SplitSlice(items, MaxBatchWriteItem);
      ChunksWithinLimit(items);
      ghost var batches := DeleteBatches(accountID, chunks);
      assert batches == DeleteBatches(received.value.accountID, Chunks(fetch(received.value.accountID).value, MaxBatchWriteItem));
      err := DeleteChunks(accountID, chunks, batches);
    }

    /** The chunk loop of ProcessSingleThread; `batches` names each chunk's
        delete requests. */
    method DeleteChunks(accountID: string, chunks: seq<seq<ContentItem>>, ghost batches: seq<seq<WriteRequest>>)
      returns (err: Option<Error>)
      requires |batches| == |chunks|
      requires forall j :: 0 <= j < |chunks| ==> batches[j] == DeleteRequests(accountID, ContentIDs(chunks[j]))
      requires forall j :: 0 <= j < |chunks| ==> |chunks[j]| <= MaxBatchWriteItem
      modifies dbService.client`items, dbService.client`writes
      ensures var k := Succeeding(dbService.client.failing, |old(dbService.client.writes)|, batches);
        dbService.client.writes == old(dbService.client.writes) + Calls(dbService.tableName, batches[..Issued(k, |batches|)]) &&
        err == (if k < |batches| then CallError(dbService.client.failing, |old(dbService.client.writes)| + k, batches[k]) else None) &&
        dbService.client.items == Apply(old(dbService.client.items), Flatten(batches[..k]))
    {
      var client := dbService.client;
      ghost var w0 := |client.writes|;
      ghost var applied: seq<WriteRequest> := [];
      var j := 0;
      while j < |chunks|
        invariant 0 <= j <= |chunks|
        invariant forall i :: 0 <= i < j ==> CallError(client.failing, w0 + i, batches[i]).None?
        invariant client.writes == old(client.writes) + Calls(dbService.tableName, batches[..j])
        invariant applied == Flatten(batches[..j])
        invariant client.items == Apply(old(client.items), applied)
      {
        err := DeleteChunk(accountID, chunks[j]);
        assert Calls(dbService.tableName, batches[..j + 1]) == Calls(dbService.tableName, batches[..j]) + [BatchCall(dbService.tableName, batches[j])];
        if err.Some? {
          SucceedingExact(client.failing, w0, batches, j);
          return;
        }
        FlattenTake(batches, j);
        ApplyAppend(old(client.items), applied, batches[j]);
        applied := applied + batches[j];
        j := j + 1;
      }
      SucceedingExact(client.failing, w0, batches, j);
      assert batches[..j] == batches;
      err := None;
    }
  }
}
