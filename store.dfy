/** The part of DynamoDB the core talks to, seen through its client: a paged
    Query whose replies are given in advance, and BatchWriteItem applied to a
    table of keyed items. */
module Store {
  import opened Model

  /** The store's own ceiling on write requests in one BatchWriteItem call. */
  const BatchWriteLimit: nat := 25

  /** The only key condition the core issues. */
  const KeyCondition := "PK = :pkVal AND begins_with(SK, :skPrefix)"

  /** A table key: partition key and sort key. */
  datatype Key = Key(pk: string, sk: string)

  /** A content record as WriteItems stores it. */
  datatype StoredItem = StoredItem(
    pk: string, sk: string,
    accountID: string, contentID: string,
    created: string, modified: string)

  function KeyOf(item: StoredItem): Key
  {
    Key(item.pk, item.sk)
  }

  datatype WriteRequest = Put(item: StoredItem) | Delete(key: Key)

  /** One BatchWriteItem call: the table it names and its write requests. */
  datatype BatchCall = BatchCall(tableName: string, requests: seq<WriteRequest>)

  /** An attribute map of a query page, before unmarshalling. */
  datatype RawItem = Decodable(item: ContentItem) | Malformed(reason: string)

  /** The reply to one Query call. */
  datatype PageResponse =
    | Failed(error: Error)
    | Output(items: seq<RawItem>, lastEvaluatedKey: Option<Key>)

  datatype QueryInput = QueryInput(
    tableName: string,
    keyConditionExpression: string,
    pkVal: string,
    skPrefix: string,
    projectionExpression: string,
    limit: nat,
    exclusiveStartKey: Option<Key>)

  /** Whether the store's evaluation of `q`'s key condition selects `key`:
      PK equals :pkVal and SK begins with :skPrefix. */
  predicate Selects(q: QueryInput, key: Key)
  {
    q.keyConditionExpression == KeyCondition && key.pk == q.pkVal && q.skPrefix <= key.sk
  }

  /** The reply to the Query call numbered `n`; past the replies given, the
      store answers with an error. */
  function Reply(pages: seq<PageResponse>, n: nat): (r: PageResponse)
    ensures r.Output? ==> n < |pages|
  {
    if n < |pages| then pages[n] else Failed(QueryFailed("no reply"))
  }

  /** The continuation key of a reply (none for a failed one). */
  function LastKey(r: PageResponse): Option<Key>
  {
    if r.Output? then r.lastEvaluatedKey else None
  }

  /** Unmarshalling a page's attribute maps: all of them, or the first failure. */
  function Unmarshal(raw: seq<RawItem>): (r: Result<seq<ContentItem>>)
    ensures r.Failure? ==> r.error.DecodeFailed?
  {
    if raw == [] then Success([])
    else match raw[0]
      case Malformed(why) => Failure(DecodeFailed(why))
      case Decodable(it) =>
        match Unmarshal(raw[1..])
        case Failure(e) => Failure(e)
        case Success(rest) => Success([it] + rest)
  }

  /** Unmarshalling succeeds exactly when every attribute map is decodable,
      and then yields their items, one per map, in order. */
  lemma {:induction false} UnmarshalSpec(raw: seq<RawItem>)
    ensures Unmarshal(raw).Success? <==> forall i :: 0 <= i < |raw| ==> raw[i].Decodable?
    ensures Unmarshal(raw).Success? ==>
      |Unmarshal(raw).value| == |raw| && forall i :: 0 <= i < |raw| ==> Unmarshal(raw).value[i] == raw[i].item
    decreases |raw|
  {
    if raw != [] {
      UnmarshalSpec(raw[1..]);
      if raw[0].Decodable? && Unmarshal(raw[1..]).Success? {
        forall i | 0 <= i < |raw| ensures Unmarshal(raw).value[i] == raw[i].item {
          if i > 0 { assert raw[i] == raw[1..][i - 1]; }
        }
      }
      if Unmarshal(raw).Success? {
        forall i | 0 <= i < |raw| ensures raw[i].Decodable? {
          if i > 0 { assert raw[i] == raw[1..][i - 1]; }
        }
      }
    }
  }

  /** Unmarshalling two lists together succeeds exactly when both succeed,
      and then yields both results in order. */
  lemma UnmarshalAppend(a: seq<RawItem>, b: seq<RawItem>)
    ensures Unmarshal(a + b).Success? <==> Unmarshal(a).Success? && Unmarshal(b).Success?
    ensures Unmarshal(a + b).Success? ==> Unmarshal(a + b).value == Unmarshal(a).value + Unmarshal(b).value
  {
    var ab := a + b;
    UnmarshalSpec(a);
    UnmarshalSpec(b);
    UnmarshalSpec(ab);
    assert forall i :: 0 <= i < |a| ==> ab[i] == a[i];
    assert forall i :: 0 <= i < |b| ==> ab[|a| + i] == b[i];
    if Unmarshal(a).Success? && Unmarshal(b).Success? {
      assert Unmarshal(ab).Success?;
    }
  }

  /** The key a write request names. */
  function RequestKey(r: WriteRequest): Key
  {
    match r
    case Put(item) => KeyOf(item)
    case Delete(key) => key
  }

  /** Whether two requests of one call name the same key. */
  predicate DuplicateKeys(requests: seq<WriteRequest>)
  {
    exists i, j :: 0 <= i < j < |requests| && RequestKey(requests[i]) == RequestKey(requests[j])
  }

  const EmptyBatch := "empty request list"
  const RepeatedKey := "two requests name the same key"

  /** The error a BatchWriteItem call numbered `n` returns, if any. The store
      validates the whole call first: it refuses an empty request list, more
      than 25 requests, and two requests on one key. A valid call fails when
      `failing` names it. */
  function CallError(failing: map<nat, string>, n: nat, requests: seq<WriteRequest>): Option<Error>
  {
    if requests == [] then Some(BatchInvalid(EmptyBatch))
    else if |requests| > BatchWriteLimit then Some(BatchRejected(|requests|))
    else if DuplicateKeys(requests) then Some(BatchInvalid(RepeatedKey))
    else if n in failing then Some(BatchWriteFailed(failing[n]))
    else None
  }

  /** The table after one write request. */
  function Step(m: map<Key, StoredItem>, r: WriteRequest): map<Key, StoredItem>
  {
    match r
    case Put(item) => m[KeyOf(item) := item]
    case Delete(key) => m - {key}
  }

  /** The table after a sequence of write requests, in order. */
  function Apply(m: map<Key, StoredItem>, requests: seq<WriteRequest>): map<Key, StoredItem>
    decreases |requests|
  {
    if requests == [] then m else Apply(Step(m, requests[0]), requests[1..])
  }

  /** The keys `requests` delete. */
  function DeletedKeys(requests: seq<WriteRequest>): set<Key>
  {
    set i | 0 <= i < |requests| && requests[i].Delete? :: requests[i].key
  }

  lemma {:induction false} ApplyAppend(m: map<Key, StoredItem>, a: seq<WriteRequest>, b: seq<WriteRequest>)
    ensures Apply(m, a + b) == Apply(Apply(m, a), b)
    decreases |a|
  {
    if a == [] {
      assert a + b == b;
    } else {
      assert (a + b)[1..] == a[1..] + b;
      ApplyAppend(Step(m, a[0]), a[1..], b);
    }
  }

  /** Deleting is set subtraction: keys that are absent cost nothing and
      every other item stays as it was. */
  lemma {:induction false} ApplyDeletes(m: map<Key, StoredItem>, requests: seq<WriteRequest>)
    requires forall i :: 0 <= i < |requests| ==> requests[i].Delete?
    ensures Apply(m, requests) == m - DeletedKeys(requests)
    decreases |requests|
  {
    if requests != [] {
      var rest := requests[1..];
      ApplyDeletes(m - {requests[0].key}, rest);
      assert DeletedKeys(requests) == {requests[0].key} + DeletedKeys(rest) by {
        forall k | k in DeletedKeys(requests) ensures k in {requests[0].key} + DeletedKeys(rest) {
          var i :| 0 <= i < |requests| && requests[i].Delete? && requests[i].key == k;
          if i > 0 { assert rest[i - 1] == requests[i]; }
        }
        forall k | k in DeletedKeys(rest) ensures k in DeletedKeys(requests) {
          var i :| 0 <= i < |rest| && rest[i].Delete? && rest[i].key == k;
          assert requests[i + 1] == rest[i];
        }
      }
    } else {
      assert DeletedKeys(requests) == {};
    }
  }

  /** A key no request writes keeps its item. */
  lemma {:induction false} ApplyUntouched(m: map<Key, StoredItem>, requests: seq<WriteRequest>, k: Key)
    requires forall i :: 0 <= i < |requests| ==> requests[i].Put? && KeyOf(requests[i].item) != k
    ensures k in Apply(m, requests) <==> k in m
    ensures k in m ==> Apply(m, requests)[k] == m[k]
    decreases |requests|
  {
    if requests != [] {
      ApplyUntouched(Step(m, requests[0]), requests[1..], k);
    }
  }

  /** Every two puts with the same key put the same item. */
  predicate ConsistentPuts(requests: seq<WriteRequest>)
  {
    forall i, j ::
      (0 <= i < |requests| && 0 <= j < |requests| && requests[i].Put? && requests[j].Put? &&
       KeyOf(requests[i].item) == KeyOf(requests[j].item)) ==> requests[i].item == requests[j].item
  }

  /** Puts that agree on each key leave every put item stored under its key. */
  lemma {:induction false} ApplyPuts(m: map<Key, StoredItem>, requests: seq<WriteRequest>)
    requires forall i :: 0 <= i < |requests| ==> requests[i].Put?
    requires ConsistentPuts(requests)
    ensures forall i :: 0 <= i < |requests| ==>
      KeyOf(requests[i].item) in Apply(m, requests) && Apply(m, requests)[KeyOf(requests[i].item)] == requests[i].item
    decreases |requests|
  {
    if requests != [] {
      var first, rest := requests[0].item, requests[1..];
      var m' := Step(m, requests[0]);
      ApplyPuts(m', rest);
      forall i | 0 <= i < |requests|
        ensures KeyOf(requests[i].item) in Apply(m, requests) && Apply(m, requests)[KeyOf(requests[i].item)] == requests[i].item
      {
        if i > 0 {
          assert requests[i] == rest[i - 1];
        } else if exists j :: 0 <= j < |rest| && KeyOf(rest[j].item) == KeyOf(first) {
          var j :| 0 <= j < |rest| && KeyOf(rest[j].item) == KeyOf(first);
          assert rest[j] == requests[j + 1];
        } else {
          ApplyUntouched(m', rest, KeyOf(first));
        }
      }
    }
  }

  /** The DynamoDB client. Query replies come from `pages` in call order; the
      BatchWriteItem calls named in `failing` fail; the others apply to `items`.
      `queries` and `writes` record every call, in order. */
  class Client {
    const pages: seq<PageResponse>
    const failing: map<nat, string>
    var items: map<Key, StoredItem>
    var queries: seq<QueryInput>
    var writes: seq<BatchCall>

    constructor (pages: seq<PageResponse>, failing: map<nat, string>, items: map<Key, StoredItem>)
      ensures this.pages == pages && this.failing == failing && this.items == items
      ensures queries == [] && writes == []
    {
      this.pages := pages;
      this.failing := failing;
      this.items := items;
      queries := [];
      writes := [];
    }

    /** One Query call: it is recorded and answered with the next reply. */
    method Query(q: QueryInput) returns (r: PageResponse)
      modifies this`queries
      ensures queries == old(queries) + [q]
      ensures r == Reply(pages, |old(queries)|)
    {
      r := Reply(pages, |queries|);
      queries := queries + [q];
    }

    /** One BatchWriteItem call: it is recorded; when it succeeds its requests
        are applied in order, and when it fails the table is unchanged. */
    method BatchWriteItem(tableName: string, requests: seq<WriteRequest>) returns (err: Option<Error>)
      modifies this`items, this`writes
      ensures writes == old(writes) + [BatchCall(tableName, requests)]
      ensures err == CallError(failing, |old(writes)|, requests)
      ensures items == if err.None? then Apply(old(items), requests) else old(items)
    {
      err := CallError(failing, |writes|, requests);
      if err.None? {
        items := Apply(items, requests);
      }
      writes := writes + [BatchCall(tableName, requests)];
    }
  }
}
