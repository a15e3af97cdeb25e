/** The payment store: a map from payment id to the payment object itself, so
    a payment fetched from the store is the stored one (changing it changes
    the store). The map's key order, which `findAll` follows, is the order in
    which keys were first inserted. */
module InMemoryPaymentRepositories {
  import opened Errors
  import opened PaymentEntity

  predicate NoDuplicates<T(==)>(s: seq<T>)
  {
    forall i, j | 0 <= i < j < |s| :: s[i] != s[j]
  }

  /** A sequence without repetitions has as many elements as the set it lists. */
  lemma {:induction false} DistinctCount<T>(s: seq<T>, elements: set<T>)
    requires NoDuplicates(s)
    requires forall x :: x in s <==> x in elements
    ensures |elements| == |s|
  {
    if s != [] {
      var rest := elements - {s[0]};
      forall x
        ensures x in s[1..] <==> x in rest
      {
        if x in s[1..] {
          var k :| 1 <= k < |s| && s[k] == x;
          assert s[0] != s[k];
        }
        if x in rest {
          assert x in s && x != s[0];
          var k :| 0 <= k < |s| && s[k] == x;
          assert s[1..][k - 1] == x;
        }
      }
      DistinctCount(s[1..], rest);
    }
  }

  /** Writing back the value a key already holds leaves a map as it was. */
  lemma RewriteIsIdentity<K, V>(m: map<K, V>, k: K)
    requires k in m
    ensures m[k := m[k]] == m
  {
  }

  /** The view of a store as values: what each id's payment reports now. */
  type Store = map<string, PaymentState>

  /** No payment that was processed in `before` is missing or pending in `after`. */
  ghost predicate StatusesMonotone(before: Store, after: Store)
  {
    forall id | id in before && before[id].status == Processed :: id in after && after[id].status == Processed
  }

  class InMemoryPaymentRepository {
    var payments: map<string, Payment>
    /** The keys of `payments` in first-insertion order. */
    var keys: seq<string>

    /** Every entry is keyed by its payment's id, and `keys` lists each key once. */
    ghost predicate Valid()
      reads this
    {
      && (forall id | id in payments :: payments[id].Id() == id)
      && NoDuplicates(keys)
      && (forall id :: id in keys <==> id in payments)
    }

    /** What the stored payments report now. */
    ghost function Contents(): Store
      reads this, payments.Values
    {
      map id | id in payments :: payments[id].State()
    }

    /** When the map is the same and at most the payment under `id` changed,
        the view changes at `id` only. */
    twostate lemma ChangedAtMostAt(id: string)
      requires old(Valid()) && id in old(payments)
      requires payments == old(payments) && keys == old(keys)
      requires forall p | p in old(payments.Values) && p != old(payments)[id] :: unchanged(p)
      ensures Valid()
      ensures Contents() == old(Contents())[id := payments[id].State()]
    {
      forall k | k in payments && k != id
        ensures payments[k].State() == old(payments[k].State())
      {
        assert payments[k].Id() == k;
        assert payments[k] in old(payments.Values);
      }
    }

    /** When the map gained or replaced the entry for `p` and no payment
        changed, the view changes at `p`'s id only. */
    twostate lemma StoredAt(p: Payment)
      requires payments == old(payments)[p.Id() := p]
      requires unchanged(p) && forall q | q in old(payments.Values) :: unchanged(q)
      ensures Contents() == old(Contents())[p.Id() := p.State()]
    {
      forall k | k in payments && k != p.Id()
        ensures payments[k].State() == old(payments[k].State())
      {
        assert payments[k] in old(payments.Values);
      }
      assert Contents().Keys == old(Contents()).Keys + {p.Id()};
    }

    constructor ()
      ensures Valid()
      ensures payments == map[] && keys == []
    {
      payments := map[];
      keys := [];
    }

    /** `save(payment)`: stores the payment under its id, replacing whatever
        was there; it never fails. */
    method Save(payment: Payment)
      requires Valid()
      modifies this
      ensures Valid()
      ensures payments == old(payments)[payment.Id() := payment]
      ensures keys == if payment.Id() in old(payments) then old(keys) else old(keys) + [payment.Id()]
      ensures Contents() == old(Contents())[payment.Id() := payment.State()]
    {
      if payment.Id() !in payments {
        keys := keys + [payment.Id()];
      }
      payments := payments[payment.Id() := payment];
      StoredAt(payment);
    }

    /** `update(payment)`: like `save`, but refuses an id that is not stored,
        and then changes nothing. */
    method Update(payment: Payment) returns (outcome: Outcome)
      requires Valid()
      modifies this
      ensures Valid()
      ensures keys == old(keys)
      ensures payment.Id() !in old(payments) ==>
        outcome == Fail(PaymentNotFound(payment.Id())) && payments == old(payments)
      ensures payment.Id() in old(payments) ==>
        outcome == Pass && payments == old(payments)[payment.Id() := payment]
      ensures Contents() ==
        if payment.Id() in old(payments) then old(Contents())[payment.Id() := payment.State()] else old(Contents())
    {
      if payment.Id() !in payments {
        return Fail(PaymentNotFound(payment.Id()));
      }
      payments := payments[payment.Id() := payment];
      StoredAt(payment);
      outcome := Pass;
    }

    /** `findById(id)`: the stored payment with that id, or null when there is none. */
    method FindById(id: string) returns (payment: Payment?)
      requires Valid()
      ensures payment == null <==> id !in payments
      ensures payment != null ==> payment == payments[id] && payment.Id() == id
    {
      payment := if id in payments then payments[id] else null;
    }

    /** `findAll()`: every stored payment exactly once, in key insertion order. */
    method FindAll() returns (all: seq<Payment>)
      requires Valid()
      ensures |all| == |payments| == |keys|
      ensures forall i | 0 <= i < |all| :: all[i] == payments[keys[i]]
      ensures forall p :: p in all <==> p in payments.Values
      ensures NoDuplicates(all)
    {
      var stored, order := payments, keys;
      all := seq(|order|, i requires 0 <= i < |order| => stored[order[i]]);
      DistinctCount(keys, payments.Keys);
      forall p | p in payments.Values
        ensures p in all
      {
        var id :| id in payments && payments[id] == p;
        var k :| 0 <= k < |keys| && keys[k] == id;
        assert all[k] == p;
      }
    }
  }
}
