/** The trade cache that the provider shares with every page: the list of
    trades last received from the store, a loading flag and the last fetch
    error. Each operation issues one store request and, when the store's
    reply is a success, rewrites the list from that reply; a failed reply
    leaves the list alone and is reported, never raised. The store itself is
    not modelled: its reply is a parameter, and the requests issued are
    recorded in `sent`. */
module TradeContext {
  import opened Journal

  /** A request the cache sends to the `trades` table. */
  datatype Request =
    | SelectAllByDateDesc
    | Insert(newTrade: Record)
    | Update(id: string, fields: Record)
    | Delete(id: string)

  /** The store's reply to a select: the rows (possibly null), or an error. */
  datatype FetchReply = Rows(data: Option<seq<Trade>>) | FetchError(message: string)

  /** The store's reply to an insert or update that selects the written row:
      the first row returned, or an error. */
  datatype WriteReply = Written(row: Trade) | WriteError(message: string)

  /** The store's reply to a delete. */
  datatype DeleteReply = Deleted | DeleteError(message: string)

  /** What add, update and delete return to their caller. */
  datatype Outcome = Success | Failure(error: string)

  /** Every entry with identifier `id` replaced by `row`, in place. */
  function ReplaceById(ts: seq<Trade>, id: string, row: Trade): (r: seq<Trade>)
    ensures |r| == |ts|
    ensures forall i :: 0 <= i < |ts| ==> r[i] == if ts[i].id == id then row else ts[i]
  {
    if ts == [] then []
    else [if ts[0].id == id then row else ts[0]] + ReplaceById(ts[1..], id, row)
  }

  /** The entries whose identifier is not `id`, in their order. */
  function RemoveById(ts: seq<Trade>, id: string): (r: seq<Trade>)
    ensures |r| <= |ts|
    ensures forall t :: multiset(r)[t] == if t.id == id then 0 else multiset(ts)[t]
  {
    if ts == [] then []
    else
      assert ts == [ts[0]] + ts[1..];
      var rest := RemoveById(ts[1..], id);
      if ts[0].id == id then rest else [ts[0]] + rest
  }

  /** Removal keeps the survivors' relative order: it distributes over
      concatenation. */
  lemma {:induction false} RemoveByIdAppend(a: seq<Trade>, b: seq<Trade>, id: string)
    ensures RemoveById(a + b, id) == RemoveById(a, id) + RemoveById(b, id)
    decreases |a|
  {
    if a == [] {
      assert a + b == b;
    } else {
      assert (a + b)[0] == a[0] && (a + b)[1..] == a[1..] + b;
      RemoveByIdAppend(a[1..], b, id);
    }
  }

  /** Deleting an identifier that no entry has leaves the list as it was. */
  lemma {:induction false} RemoveAbsentId(ts: seq<Trade>, id: string)
    requires forall i :: 0 <= i < |ts| ==> ts[i].id != id
    ensures RemoveById(ts, id) == ts
    decreases |ts|
  {
    if ts != [] {
      RemoveAbsentId(ts[1..], id);
    }
  }

  /** Replacing by an identifier that no entry has leaves the list as it was. */
  lemma ReplaceAbsentId(ts: seq<Trade>, id: string, row: Trade)
    requires forall i :: 0 <= i < |ts| ==> ts[i].id != id
    ensures ReplaceById(ts, id, row) == ts
  {
  }

  /** After a removal no entry has the identifier, so removing again changes
      nothing. */
  lemma RemoveIdempotent(ts: seq<Trade>, id: string)
    ensures forall i :: 0 <= i < |RemoveById(ts, id)| ==> RemoveById(ts, id)[i].id != id
    ensures RemoveById(RemoveById(ts, id), id) == RemoveById(ts, id)
  {
    var r := RemoveById(ts, id);
    forall i | 0 <= i < |r| ensures r[i].id != id {
      assert multiset(r)[r[i]] > 0;
    }
    RemoveAbsentId(r, id);
  }

  class TradeCache {
    var trades: seq<Trade>
    var loading: bool
    var error: Option<string>
    /** The requests issued to the store, oldest first. */
    ghost var sent: seq<Request>

    /** The provider's initial state, before its first fetch completes. */
    constructor ()
      ensures trades == [] && loading && error == None && sent == []
    {
      trades := [];
      loading := true;
      error := None;
      sent := [];
    }

    /** Reload the list: a successful reply replaces it (null rows read as an
        empty list), a failed one records its message and keeps the list;
        either way loading ends. */
    method FetchTrades(reply: FetchReply)
      modifies this
      ensures sent == old(sent) + [SelectAllByDateDesc]
      ensures !loading
      ensures reply.Rows? ==>
                error == old(error) && trades == (match reply.data case Some(rows) => rows case None => [])
      ensures reply.FetchError? ==> trades == old(trades) && error == Some(reply.message)
    {
      loading := true;
      sent := sent + [SelectAllByDateDesc];
      match reply {
        case Rows(data) =>
          trades := match data case Some(rows) => rows case None => [];
        case FetchError(message) =>
          error := Some(message);
      }
      loading := false;
    }

    /** Insert a trade; the stored row goes to the front of the list, which
        is not re-sorted by date. */
    method AddTrade(newTrade: Record, reply: WriteReply) returns (o: Outcome)
      modifies this`trades, this`sent
      ensures sent == old(sent) + [Insert(newTrade)]
      ensures reply.Written? ==> o == Success && trades == [reply.row] + old(trades)
      ensures reply.WriteError? ==> o == Failure(reply.message) && trades == old(trades)
    {
      sent := sent + [Insert(newTrade)];
      match reply {
        case Written(row) =>
          trades := [row] + trades;
          o := Success;
        case WriteError(message) =>
          o := Failure(message);
      }
    }

    /** Update the row `id`; every cached entry with that identifier becomes
        the row the store returned, at the same position. */
    method UpdateTrade(id: string, updatedFields: Record, reply: WriteReply) returns (o: Outcome)
      modifies this`trades, this`sent
      ensures sent == old(sent) + [Update(id, updatedFields)]
      ensures reply.Written? ==> o == Success && trades == ReplaceById(old(trades), id, reply.row)
      ensures reply.WriteError? ==> o == Failure(reply.message) && trades == old(trades)
    {
      sent := sent + [Update(id, updatedFields)];
      match reply {
        case Written(row) =>
          trades := ReplaceById(trades, id, row);
          o := Success;
        case WriteError(message) =>
          o := Failure(message);
      }
    }

    /** Delete the row `id`; the request is sent whether or not the list holds
        such an entry, and on success every entry with that identifier goes. */
    method DeleteTrade(id: string, reply: DeleteReply) returns (o: Outcome)
      modifies this`trades, this`sent
      ensures sent == old(sent) + [Delete(id)]
      ensures reply.Deleted? ==> o == Success && trades == RemoveById(old(trades), id)
      ensures reply.DeleteError? ==> o == Failure(reply.message) && trades == old(trades)
    {
      sent := sent + [Delete(id)];
      match reply {
        case Deleted =>
          trades := RemoveById(trades, id);
          o := Success;
        case DeleteError(message) =>
          o := Failure(message);
      }
    }
  }
}
