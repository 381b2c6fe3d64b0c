// The videos metadata table: items keyed by the fixed account partition
// `qut-username` and the sort key `owner_username#video_id`, and the
// `DynamoDBClient` that reads and writes it.

module Store {
  import opened Common
  import opened UpdateExpression

  /** The primary key of an item: (`qut-username`, `sort-key`). */
  datatype TableKey = TableKey(partition: string, sortKey: string)

  type Table = map<TableKey, Item>

  const PartitionAttr: string := "qut-username"
  const SortKeyAttr: string := "sort-key"

  /** `f"{owner_username}#{video_id}"` */
  function SortKey(ownerUsername: string, videoId: string): (r: string)
    ensures ownerUsername + "#" <= r
  {
    ownerUsername + "#" + videoId
  }

  /** Video ids are UUIDs, so they hold no `#`; then the sort key determines
      both its owner and its video id. */
  lemma SortKeyInjective(o1: string, v1: string, o2: string, v2: string)
    requires '#' !in v1 && '#' !in v2
    requires SortKey(o1, v1) == SortKey(o2, v2)
    ensures o1 == o2 && v1 == v2
  {
    var s := SortKey(o1, v1);
    assert s == o1 + ['#'] + v1 == o2 + ['#'] + v2;
    LastIndexAfter(o1, '#', v1);
    LastIndexAfter(o2, '#', v2);
    assert o1 == s[..|o1|] == o2;
    assert v1 == s[|o1| + 1..] == v2;
  }

  /** The key attributes of a key, as an item. */
  function KeyItem(k: TableKey): (r: Item)
    ensures KeyOfItem(r) == Some(k)
  {
    map[PartitionAttr := S(k.partition), SortKeyAttr := S(k.sortKey)]
  }

  /** The key an item is stored under, when both key attributes are strings. */
  function KeyOfItem(item: Item): Option<TableKey>
  {
    if PartitionAttr in item && item[PartitionAttr].S? && SortKeyAttr in item && item[SortKeyAttr].S? then
      Some(TableKey(item[PartitionAttr].s, item[SortKeyAttr].s))
    else None
  }

  const Validation: Exception := ClientError("ValidationException")
  /** What boto3 raises when the table service refuses a call (throttling,
      an outage, missing permissions). */
  const Unavailable: Exception := ClientError("ServiceUnavailable")

  /** `get_item`: the stored item, or nothing. */
  function Lookup(t: Table, k: TableKey): (r: Option<Item>)
    ensures r.Some? <==> k in t
    ensures r.Some? ==> r.value == t[k]
  {
    if k in t then Some(t[k]) else None
  }

  /** `put_item`: replaces the whole item stored under the item's key. */
  function PutItem(t: Table, item: Item): (r: Result<Table>)
    ensures r.Ok? <==> KeyOfItem(item).Some?
    ensures r.Ok? ==> r.value == t[KeyOfItem(item).value := item]
    ensures r.Raised? ==> r.exc == Validation
  {
    match KeyOfItem(item)
    case Some(k) => Ok(t[k := item])
    case None => Raised(Validation)
  }

  /** `delete_item`: removing an absent key is not an error. */
  function DeleteKey(t: Table, k: TableKey): (r: Table)
    ensures k !in r
    ensures forall k2 :: k2 != k ==> Lookup(r, k2) == Lookup(t, k2)
  {
    t - {k}
  }

  /** `update_item` with `ReturnValues="ALL_NEW"`: the expression is applied to
      the stored item, or to an item holding only the key when none is stored;
      targeting a key attribute is refused. Returns the new table and the new
      item. */
  function UpdateItem(t: Table, k: TableKey, req: UpdateRequest): (r: Result<(Table, Item)>)
    ensures r.Ok? ==> r.value.0 == t[k := r.value.1]
    ensures PartitionAttr in req.names.Values || SortKeyAttr in req.names.Values ==> r == Raised(Validation)
  {
    if PartitionAttr in req.names.Values || SortKeyAttr in req.names.Values then Raised(Validation)
    else
      var base := if k in t then t[k] else KeyItem(k);
      match Evaluate(base, req)
      case Ok(updated) => Ok((t[k := updated], updated))
      case Raised(e) => Raised(e)
  }

  /** What `update_item` stores for the request `update_fields` builds: the old
      item (or the bare key) overlaid with exactly the given fields, and nothing
      else in the table changes. */
  lemma UpdateFieldsEffect(t: Table, k: TableKey, fields: Fields)
    requires fields != [] && DistinctKeys(fields) && AllAttrNames(fields)
    ensures var base := if k in t then t[k] else KeyItem(k);
            UpdateItem(t, k, RequestFor(fields)) == Ok((t[k := base + FieldsMap(fields)], base + FieldsMap(fields)))
  {
    assert PartitionAttr[3] == '-' && SortKeyAttr[4] == '-';
    NamesForAvoids(fields, PartitionAttr, 3);
    NamesForAvoids(fields, SortKeyAttr, 4);
    var base := if k in t then t[k] else KeyItem(k);
    UpdateRequestRoundTrip(base, fields);
  }

  /** The one-field update every status write sends: `{"status": ...}`. */
  function StatusFields(st: Status): Fields
  {
    [("status", S(StatusName(st)))]
  }

  /** A one-field update sets exactly that attribute of the addressed record,
      creating a record holding only its key and that attribute when none
      exists. */
  lemma SingleFieldEffect(t: Table, k: TableKey, name: string, v: AttrValue)
    requires IsAttrName(name)
    ensures var base := if k in t then t[k] else KeyItem(k);
            UpdateItem(t, k, RequestFor([(name, v)])) == Ok((t[k := base[name := v]], base[name := v]))
  {
    var f := [(name, v)];
    UpdateFieldsEffect(t, k, f);
    assert f[..|f| - 1] == [];
    assert FieldsMap(f) == map[name := v];
    var base := if k in t then t[k] else KeyItem(k);
    MapPlusSingleton(base, name, v);
  }

  lemma MapPlusSingleton(base: Item, name: string, v: AttrValue)
    ensures base + map[name := v] == base[name := v]
  {
  }

  lemma StatusIsAttrName()
    ensures IsAttrName("status")
  {
    assert forall i :: 0 <= i < |"status"| ==> IsNameChar("status"[i]);
  }

  /** A status write sets exactly the status attribute of the addressed record,
      creating a record holding only its key and status when none exists. */
  lemma StatusWriteEffect(t: Table, k: TableKey, st: Status)
    ensures var base := if k in t then t[k] else KeyItem(k);
            var item := base["status" := S(StatusName(st))];
            UpdateItem(t, k, RequestFor(StatusFields(st))) == Ok((t[k := item], item))
  {
    StatusIsAttrName();
    SingleFieldEffect(t, k, "status", S(StatusName(st)));
  }

  /** The table after a status write to `k`: that record (or a bare key
      record) with only its status replaced, every other record as it was. */
  function WithStatus(t: Table, k: TableKey, st: Status): (r: Table)
    ensures k in r && Get(r[k], "status") == Some(S(StatusName(st)))
    ensures forall a :: a != "status" ==> Get(r[k], a) == Get(if k in t then t[k] else KeyItem(k), a)
    ensures forall k2 :: k2 != k ==> Lookup(r, k2) == Lookup(t, k2)
  {
    var base := if k in t then t[k] else KeyItem(k);
    t[k := base["status" := S(StatusName(st))]]
  }

  /** `WithStatus` is what `update_item` answers for a status write. */
  lemma WithStatusIsUpdate(t: Table, k: TableKey, st: Status)
    ensures UpdateItem(t, k, RequestFor(StatusFields(st))) == Ok((WithStatus(t, k, st), WithStatus(t, k, st)[k]))
  {
    StatusWriteEffect(t, k, st);
  }

  /** A stored item can be read back under its key; other keys are untouched. */
  lemma GetAfterPut(t: Table, item: Item, k: TableKey)
    requires PutItem(t, item).Ok?
    ensures Lookup(PutItem(t, item).value, KeyOfItem(item).value) == Some(item)
    ensures k != KeyOfItem(item).value ==> Lookup(PutItem(t, item).value, k) == Lookup(t, k)
  {
  }

  // ---------------------------------------------------------------------------
  // Owner queries

  /** Lexicographic order on code points (the order DynamoDB uses for string sort
      keys, which agrees with UTF-8 byte order). */
  predicate StrLess(a: string, b: string)
    decreases |a|
  {
    if a == [] then b != []
    else b != [] && (a[0] < b[0] || (a[0] == b[0] && StrLess(a[1..], b[1..])))
  }

  /** The request `query_videos_by_owner` sends. */
  datatype QueryRequest = QueryRequest(partition: string, sortKeyPrefix: string, scanIndexForward: bool,
                                       limit: int, exclusiveStartKey: Option<Item>)

  datatype QueryResponse = QueryResponse(items: seq<Item>, lastEvaluatedKey: Option<Item>)

  /** Python truthiness of an optional dict. */
  predicate TruthyDict(d: Option<Item>)
  {
    d.Some? && d.value != map[]
  }

  function QueryRequestFor(qutUsername: string, ownerUsername: string, limit: int, lastEvaluatedKey: Option<Item>): (r: QueryRequest)
    ensures r.partition == qutUsername && r.sortKeyPrefix == ownerUsername + "#"
    ensures !r.scanIndexForward && r.limit == limit
    ensures r.exclusiveStartKey.Some? <==> TruthyDict(lastEvaluatedKey)
    ensures r.exclusiveStartKey.Some? ==> r.exclusiveStartKey == lastEvaluatedKey
  {
    QueryRequest(qutUsername, ownerUsername + "#", false, limit,
                 if TruthyDict(lastEvaluatedKey) then lastEvaluatedKey else None)
  }

  /** The default page size of `query_videos_by_owner`. */
  const DefaultQueryLimit: int := 50

  function SortKeyOf(item: Item): string
  {
    if SortKeyAttr in item && item[SortKeyAttr].S? then item[SortKeyAttr].s else ""
  }

  /** What DynamoDB guarantees of an answer to a descending key-condition query:
      every item is stored under the partition with the requested sort-key
      prefix, sort keys strictly decrease, there are at most `limit` items, and
      all come after the exclusive start key. */
  predicate Answers(t: Table, req: QueryRequest, resp: QueryResponse)
  {
    |resp.items| <= req.limit
    && (forall i :: 0 <= i < |resp.items| ==>
          var it := resp.items[i];
          KeyOfItem(it).Some? && KeyOfItem(it).value in t && t[KeyOfItem(it).value] == it
          && KeyOfItem(it).value.partition == req.partition && req.sortKeyPrefix <= SortKeyOf(it))
    && (!req.scanIndexForward ==>
          forall i :: 0 < i < |resp.items| ==> StrLess(SortKeyOf(resp.items[i]), SortKeyOf(resp.items[i - 1])))
    && (!req.scanIndexForward && req.exclusiveStartKey.Some? ==>
          forall i :: 0 <= i < |resp.items| ==> StrLess(SortKeyOf(resp.items[i]), SortKeyOf(req.exclusiveStartKey.value)))
  }

  lemma {:induction false} StrLessIrreflexive(a: string)
    ensures !StrLess(a, a)
    decreases |a|
  {
    if a != [] { StrLessIrreflexive(a[1..]); }
  }

  lemma {:induction false} StrLessTransitive(a: string, b: string, c: string)
    requires StrLess(a, b) && StrLess(b, c)
    ensures StrLess(a, c)
    decreases |a|
  {
    if a != [] && a[0] == b[0] && b[0] == c[0] {
      StrLessTransitive(a[1..], b[1..], c[1..]);
    }
  }

  /** A descending answer lists every item once: the sort keys of a page are
      pairwise distinct and ordered, not only neighbour by neighbour. */
  lemma {:induction false} AnswerIsStrictlyDescending(t: Table, req: QueryRequest, resp: QueryResponse, i: nat, j: nat)
    requires Answers(t, req, resp) && !req.scanIndexForward
    requires i < j < |resp.items|
    ensures StrLess(SortKeyOf(resp.items[j]), SortKeyOf(resp.items[i]))
    decreases j - i
  {
    if j > i + 1 {
      AnswerIsStrictlyDescending(t, req, resp, i, j - 1);
      StrLessTransitive(SortKeyOf(resp.items[j]), SortKeyOf(resp.items[j - 1]), SortKeyOf(resp.items[i]));
    }
  }

  /** The sort-key prefix of an owner query also matches the sort keys of any
      owner whose name extends `owner_username#`; the owner's own keys always
      match. */
  lemma OwnerPrefixScope(owner: string, suffix: string, videoId: string)
    ensures QueryRequestFor("", owner, DefaultQueryLimit, None).sortKeyPrefix <= SortKey(owner, videoId)
    ensures QueryRequestFor("", owner, DefaultQueryLimit, None).sortKeyPrefix <= SortKey(owner + "#" + suffix, videoId)
  {
    assert SortKey(owner + "#" + suffix, videoId) == (owner + "#") + (suffix + "#" + videoId);
  }

  // ---------------------------------------------------------------------------
  // The client

  /** `DynamoDBClient`: the account partition is fixed at construction. The
      table service's answers to queries are outside the model and are given
      as a function of the request. */
  class DynamoDbClient {
    const qutUsername: string
    var table: Table

    constructor(qutUsername: string, table: Table)
      ensures this.qutUsername == qutUsername && this.table == table
    {
      this.qutUsername := qutUsername;
      this.table := table;
    }

    function KeyFor(videoId: string, ownerUsername: string): (r: TableKey)
      ensures r.partition == qutUsername && r.sortKey == SortKey(ownerUsername, videoId)
    {
      TableKey(qutUsername, SortKey(ownerUsername, videoId))
    }

    /** `get_item`. `fails` is the table service refusing the call; boto3
        raises its `ClientError`, which nothing here catches. */
    method GetVideo(videoId: string, ownerUsername: string, fails: bool) returns (r: Result<Option<Item>>)
      ensures r.Raised? <==> fails
      ensures fails ==> r.exc == Unavailable
      ensures r.Ok? ==> (r.value.Some? <==> KeyFor(videoId, ownerUsername) in table)
      ensures r.Ok? && r.value.Some? ==> r.value.value == table[KeyFor(videoId, ownerUsername)]
    {
      if fails {
        return Raised(Unavailable);
      }
      r := Ok(Lookup(table, KeyFor(videoId, ownerUsername)));
    }

    /** `put_item`; a refused call writes nothing. */
    method PutVideo(item: Item, fails: bool) returns (r: Result<()>)
      modifies this
      ensures r.Ok? <==> !fails && KeyOfItem(item).Some?
      ensures r.Ok? ==> table == old(table)[KeyOfItem(item).value := item]
      ensures r.Raised? ==> table == old(table) && r.exc == (if fails then Unavailable else Validation)
    {
      if fails {
        return Raised(Unavailable);
      }
      var put := PutItem(table, item);
      if put.Ok? {
        table := put.value;
        r := Ok(());
      } else {
        r := Raised(put.exc);
      }
    }

    /** `delete_item`; a refused call deletes nothing. */
    method DeleteVideo(videoId: string, ownerUsername: string, fails: bool) returns (r: Result<()>)
      modifies this
      ensures r.Raised? <==> fails
      ensures fails ==> r.exc == Unavailable && table == old(table)
      ensures !fails ==> table == DeleteKey(old(table), KeyFor(videoId, ownerUsername))
    {
      if fails {
        return Raised(Unavailable);
      }
      table := DeleteKey(table, KeyFor(videoId, ownerUsername));
      r := Ok(());
    }

    /** `videos_table.update_item(Key=..., ReturnValues="ALL_NEW")`; a refused
        call changes nothing. Nothing in the application calls
        `update_video_attributes`; the trigger's status write is the only
        path through this method. */
    method UpdateVideo(videoId: string, ownerUsername: string, req: UpdateRequest, fails: bool) returns (r: Result<Item>)
      modifies this
      ensures fails ==> r == Raised(Unavailable) && table == old(table)
      ensures var u := UpdateItem(old(table), KeyFor(videoId, ownerUsername), req);
              !fails ==> (u.Ok? ==> r == Ok(u.value.1) && table == u.value.0)
                         && (u.Raised? ==> r == Raised(u.exc) && table == old(table))
    {
      if fails {
        return Raised(Unavailable);
      }
      var u := UpdateItem(table, KeyFor(videoId, ownerUsername), req);
      if u.Ok? {
        table := u.value.0;
        r := Ok(u.value.1);
      } else {
        r := Raised(u.exc);
      }
    }

    method QueryVideosByOwner(ownerUsername: string, limit: int, lastEvaluatedKey: Option<Item>,
                              service: QueryRequest -> QueryResponse) returns (req: QueryRequest, resp: QueryResponse)
      ensures req == QueryRequestFor(qutUsername, ownerUsername, limit, lastEvaluatedKey)
      ensures resp == service(req)
    {
      req := QueryRequestFor(qutUsername, ownerUsername, limit, lastEvaluatedKey);
      resp := service(req);
    }
  }
}
