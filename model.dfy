/** The records exchanged between the queue, the store and the deletion pipeline
    (model/model.go), and the errors the core returns. */
module Model {

  datatype Option<+T> = None | Some(value: T)

  datatype Result<+T> = Success(value: T) | Failure(error: Error)

  /** Every error the core produces or passes on. */
  datatype Error =
    | QueryFailed(reason: string)       // the store's Query call failed
    | DecodeFailed(reason: string)      // the items of a page did not unmarshal
    | TooManyDeletes(got: nat)          // DeleteAll refused more than 25 content IDs
    | BatchRejected(count: nat)         // the store refused a batch over its own ceiling
    | BatchInvalid(reason: string)      // the store refused an empty batch or one naming a key twice
    | BatchWriteFailed(reason: string)  // a BatchWriteItem call failed
    | ReceiveFailed(reason: string)     // receiving the queue message failed

  /** One content record as a query page yields it. The query projects only
      account_id and content_id, so pk and sk stay empty in practice. */
  datatype ContentItem = ContentItem(pk: string, sk: string, accountID: string, contentID: string)

  /** The queue message asking for an account's content to be deleted;
      the receipt handle is carried, never inspected. */
  datatype DeleteContentMessage = DeleteContentMessage(accountID: string, receiptHandle: Option<string>)

  /** One unit of deletion work: content IDs of a single account. */
  datatype DeleteItemRequest = DeleteItemRequest(accountID: string, contentIDs: seq<string>)

  /** The content IDs of `items`, in order. */
  function ContentIDs(items: seq<ContentItem>): seq<string>
  {
    if items == [] then [] else [items[0].contentID] + ContentIDs(items[1..])
  }

  /** The i-th content ID is the i-th item's. */
  lemma {:induction false} ContentIDsIndex(items: seq<ContentItem>)
    ensures |ContentIDs(items)| == |items|
    ensures forall i :: 0 <= i < |items| ==> ContentIDs(items)[i] == items[i].contentID
    decreases |items|
  {
    if items != [] {
      ContentIDsIndex(items[1..]);
    }
  }

  lemma ContentIDsAppend(a: seq<ContentItem>, b: seq<ContentItem>)
    ensures ContentIDs(a + b) == ContentIDs(a) + ContentIDs(b)
  {
    ContentIDsIndex(a);
    ContentIDsIndex(b);
    ContentIDsIndex(a + b);
    forall i | 0 <= i < |a + b|
      ensures ContentIDs(a + b)[i] == (ContentIDs(a) + ContentIDs(b))[i]
    {
      if i < |a| { assert (a + b)[i] == a[i]; } else { assert (a + b)[i] == b[i - |a|]; }
    }
  }
}
