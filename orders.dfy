/** The in-memory order store of lib/db.ts: a process-wide map from order id
    to order record, with `upsert`, `get`, `setStatus` and `setPdf`. */
module Orders {
  import opened Options

  datatype Status = Pending | Paid | Failed

  /** An order record; `pdfUrl` is absent until a report has been recorded. */
  datatype Order = Order(
    orderId: string,
    name: string,
    birthdate: string,
    email: string,
    gender: string,
    amount: int,
    status: Status,
    pdfUrl: Option<string>)

  type Store = map<string, Order>

  /** Every record sits under its own id: `upsert` files an order under
      `order.orderId`, and no operation changes an id afterwards. */
  ghost predicate Keyed(m: Store) {
    forall k :: k in m ==> m[k].orderId == k
  }

  /** `store.get(id) || null`: an order object is always truthy, so the
      result is null exactly when the id is absent. */
  function Lookup(m: Store, id: string): (r: Option<Order>)
    ensures r.Some? <==> id in m
    ensures r.Some? ==> r.value == m[id]
  {
    if id in m then Some(m[id]) else None
  }

  /** The store after `upsert(o)`: the whole record under `o.orderId` is
      replaced by `o`, every other entry is kept. */
  function Upserted(m: Store, o: Order): (m': Store)
    ensures m'.Keys == m.Keys + {o.orderId}
    ensures m'[o.orderId] == o
    ensures forall k :: k in m && k != o.orderId ==> m'[k] == m[k]
  {
    m[o.orderId := o]
  }

  /** The store after `setStatus(id, s)`: on a known id only that record's
      status changes, to `s`, whatever it was before; on an unknown id
      nothing changes. */
  function StatusSet(m: Store, id: string, s: Status): (m': Store)
    ensures m'.Keys == m.Keys
    ensures id in m ==> m'[id] == m[id].(status := s)
    ensures forall k :: k in m && k != id ==> m'[k] == m[k]
    ensures id !in m ==> m' == m
  {
    if id in m then m[id := m[id].(status := s)] else m
  }

  /** The store after `setPdf(id, u)`: on a known id only that record's
      `pdfUrl` changes, to `u`; on an unknown id nothing changes. */
  function PdfSet(m: Store, id: string, u: string): (m': Store)
    ensures m'.Keys == m.Keys
    ensures id in m ==> m'[id] == m[id].(pdfUrl := Some(u))
    ensures forall k :: k in m && k != id ==> m'[k] == m[k]
    ensures id !in m ==> m' == m
  {
    if id in m then m[id := m[id].(pdfUrl := Some(u))] else m
  }

  /** All three mutators keep every record under its own id. */
  lemma MutatorsKeepKeyed(m: Store, o: Order, id: string, s: Status, u: string)
    requires Keyed(m)
    ensures Keyed(Upserted(m, o))
    ensures Keyed(StatusSet(m, id, s))
    ensures Keyed(PdfSet(m, id, u))
  {
  }

  /** After `upsert(o)`, `get(o.orderId)` returns `o` and every other lookup
      answers as before. */
  lemma UpsertThenGet(m: Store, o: Order, k: string)
    ensures Lookup(Upserted(m, o), o.orderId) == Some(o)
    ensures k != o.orderId ==> Lookup(Upserted(m, o), k) == Lookup(m, k)
  {
  }

  /** Upserting over an existing id keeps nothing of the old record: what
      `get` returns afterwards does not depend on what was stored before. */
  lemma UpsertReplacesWholeRecord(m1: Store, m2: Store, o: Order)
    ensures Lookup(Upserted(m1, o), o.orderId) == Lookup(Upserted(m2, o), o.orderId) == Some(o)
  {
  }

  /** `setStatus` applies no transition check: even a terminal status is
      overwritten by any status. */
  lemma StatusSetIgnoresCurrentStatus(m: Store, id: string, s: Status)
    requires id in m
    ensures Lookup(StatusSet(m, id, s), id).value.status == s
    ensures Lookup(StatusSet(m, id, s), id).value.pdfUrl == m[id].pdfUrl
  {
  }

  /** `setStatus` and `setPdf` are idempotent. */
  lemma MutatorsIdempotent(m: Store, id: string, s: Status, u: string)
    ensures StatusSet(StatusSet(m, id, s), id, s) == StatusSet(m, id, s)
    ensures PdfSet(PdfSet(m, id, u), id, u) == PdfSet(m, id, u)
  {
  }

  /** The module-level `store` together with the `DB` object's operations. */
  class OrderStore {
    var orders: Store

    ghost predicate Valid()
      reads this
    {
      Keyed(orders)
    }

    constructor ()
      ensures Valid() && orders == map[]
    {
      orders := map[];
    }

    /** `DB.upsert(order)`: stores the record under its id and returns it. */
    method Upsert(order: Order) returns (r: Order)
      requires Valid()
      modifies this
      ensures Valid()
      ensures orders == Upserted(old(orders), order)
      ensures r == order
    {
      orders := orders[order.orderId := order];
      r := order;
    }

    /** `DB.get(orderId)`. */
    function Get(orderId: string): (r: Option<Order>)
      reads this
      ensures r.Some? <==> orderId in orders
      ensures r.Some? ==> r.value == orders[orderId]
    {
      Lookup(orders, orderId)
    }

    /** `DB.setStatus(orderId, status)`: null and no change on an unknown id,
        otherwise the updated record. */
    method SetStatus(orderId: string, status: Status) returns (r: Option<Order>)
      requires Valid()
      modifies this
      ensures Valid()
      ensures orders == StatusSet(old(orders), orderId, status)
      ensures r == Lookup(orders, orderId)
      ensures r.Some? <==> orderId in old(orders)
    {
      if orderId !in orders {
        return None;
      }
      var o := orders[orderId];
      o := o.(status := status);
      orders := orders[orderId := o];
      r := Some(o);
    }

    /** `DB.setPdf(orderId, pdfUrl)`: null and no change on an unknown id,
        otherwise the updated record. */
    method SetPdf(orderId: string, pdfUrl: string) returns (r: Option<Order>)
      requires Valid()
      modifies this
      ensures Valid()
      ensures orders == PdfSet(old(orders), orderId, pdfUrl)
      ensures r == Lookup(orders, orderId)
      ensures r.Some? <==> orderId in old(orders)
    {
      if orderId !in orders {
        return None;
      }
      var o := orders[orderId];
      o := o.(pdfUrl := Some(pdfUrl));
      orders := orders[orderId := o];
      r := Some(o);
    }
  }
}
