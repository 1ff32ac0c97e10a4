/**
 * The ledger store: a document collection keyed by a generated identifier,
 * with `save` (insert, or replace when the record already carries an id) and
 * the derived queries by account, credit, customer and type.
 */
module Repository {
  import opened Wrappers
  import opened Entity

  /** The rows of `rows` that satisfy `p`, in storage order. */
  function Where(rows: seq<Transaction>, p: Transaction -> bool): (r: seq<Transaction>)
    ensures |r| <= |rows|
    ensures forall t :: multiset(r)[t] == if p(t) then multiset(rows)[t] else 0
    ensures forall t :: t in r <==> t in rows && p(t)
  {
    if rows == [] then []
    else
      assert rows == [rows[0]] + rows[1..];
      if p(rows[0]) then [rows[0]] + Where(rows[1..], p) else Where(rows[1..], p)
  }

  /** A query over the concatenation of two stretches of storage answers with
      the concatenation of the two answers: appending rows never disturbs
      what a query returned before. */
  lemma {:induction false} WhereAppend(a: seq<Transaction>, b: seq<Transaction>, p: Transaction -> bool)
    ensures Where(a + b, p) == Where(a, p) + Where(b, p)
  {
    if a == [] {
      assert a + b == b;
    } else {
      assert (a + b)[0] == a[0];
      assert (a + b)[1..] == a[1..] + b;
      WhereAppend(a[1..], b, p);
    }
  }

  /** The position of the row stored under `id`, if any. */
  function IndexOf(rows: seq<Transaction>, id: nat): (r: Option<nat>)
    ensures r.Some? ==> r.value < |rows| && rows[r.value].id == Some(id)
    ensures r.Some? ==> forall i :: 0 <= i < r.value ==> rows[i].id != Some(id)
    ensures r.None? ==> forall i :: 0 <= i < |rows| ==> rows[i].id != Some(id)
  {
    if rows == [] then None
    else if rows[0].id == Some(id) then Some(0)
    else match IndexOf(rows[1..], id)
      case Some(i) => Some(i + 1)
      case None => None
  }

  /** Looking up a row of `a + b` finds it in `a` first. */
  lemma {:induction false} IndexOfAppend(a: seq<Transaction>, b: seq<Transaction>, id: nat)
    ensures IndexOf(a + b, id) ==
              match IndexOf(a, id)
              case Some(i) => Some(i)
              case None => match IndexOf(b, id) case Some(j) => Some(|a| + j) case None => None
  {
    if a == [] {
      assert a + b == b;
    } else {
      assert (a + b)[0] == a[0];
      assert (a + b)[1..] == a[1..] + b;
      IndexOfAppend(a[1..], b, id);
    }
  }

  /** The row stored under `id`, if any. */
  function Lookup(rows: seq<Transaction>, id: nat): (r: Option<Transaction>)
    ensures r.Some? ==> r.value in rows && r.value.id == Some(id)
    ensures r.None? ==> forall t :: t in rows ==> t.id != Some(id)
  {
    match IndexOf(rows, id)
    case Some(i) => Some(rows[i])
    case None => None
  }

  /** What the store keeps true: every row has an id below the next one to
      generate, and no two rows share an id. */
  ghost predicate StoredUnder(rows: seq<Transaction>, nextId: nat) {
    && (forall i :: 0 <= i < |rows| ==> rows[i].id.Some? && rows[i].id.value < nextId)
    && (forall i, j :: 0 <= i < j < |rows| ==> rows[i].id != rows[j].id)
  }

  /** The contents after saving a record that already carries an id: it
      replaces the row with that id in place, or is added at the end. */
  function Upserted(rows: seq<Transaction>, t: Transaction): seq<Transaction>
    requires t.id.Some?
  {
    match IndexOf(rows, t.id.value)
    case Some(i) => rows[i := t]
    case None => rows + [t]
  }

  /** Ids generated from now on are never found among the stored rows. */
  lemma FreshIdIsAbsent(rows: seq<Transaction>, nextId: nat, k: nat)
    requires StoredUnder(rows, nextId) && nextId <= k
    ensures Lookup(rows, k) == None
  {
  }

  /** Inserting a freshly numbered row makes it findable under its id and
      leaves every other lookup as it was. */
  lemma LookupAfterInsert(rows: seq<Transaction>, nextId: nat, t: Transaction, k: nat)
    requires StoredUnder(rows, nextId)
    ensures Lookup(rows + [t.(id := Some(nextId))], k) ==
              if k == nextId then Some(t.(id := Some(nextId))) else Lookup(rows, k)
  {
    var saved := t.(id := Some(nextId));
    IndexOfAppend(rows, [saved], k);
    if k == nextId {
      assert IndexOf(rows, k) == None;
    }
  }

  class TransactionRepository {
    /** The stored rows, in storage order. */
    var rows: seq<Transaction>
    /** The next identifier the store generates. */
    var nextId: nat

    ghost predicate Valid()
      reads this
    {
      StoredUnder(rows, nextId)
    }

    constructor()
      ensures Valid() && rows == [] && nextId == 0
    {
      rows := [];
      nextId := 0;
    }

    /** Stores a record. One without an id receives a fresh one and is
        appended, leaving every stored row as it was. */
    method Save(t: Transaction) returns (saved: Transaction)
      requires Valid()
      modifies this
      ensures Valid()
      ensures t.id.None? ==>
                saved == t.(id := Some(old(nextId))) &&
                rows == old(rows) + [saved] &&
                nextId == old(nextId) + 1
      ensures t.id.Some? ==>
                saved == t &&
                rows == Upserted(old(rows), t) &&
                nextId == if t.id.value < old(nextId) then old(nextId) else t.id.value + 1
    {
      if t.id.None? {
        saved := t.(id := Some(nextId));
        rows := rows + [saved];
        nextId := nextId + 1;
      } else {
        saved := t;
        var k := t.id.value;
        if k >= nextId {
          nextId := k + 1;
        }
        match IndexOf(rows, k) {
          case Some(i) =>
            rows := rows[i := t];
          case None =>
            rows := rows + [t];
        }
      }
    }

    /** Every stored row, in storage order; it holds every row any of the
        derived finders returns. */
    function FindAll(): (r: seq<Transaction>)
      reads this
      ensures |r| == |rows| && forall i :: 0 <= i < |r| ==> r[i] == rows[i]
      ensures forall a :: multiset(FindByAccountId(a)) <= multiset(r)
      ensures forall c :: multiset(FindByCreditId(c)) <= multiset(r)
      ensures forall c :: multiset(FindByCustomerId(c)) <= multiset(r)
      ensures forall k :: multiset(FindByTransactionType(k)) <= multiset(r)
    {
      rows
    }

    /** The row stored under `id`; none when no row has it. */
    function FindById(id: nat): (r: Option<Transaction>)
      reads this
      ensures r.Some? ==> r.value in rows && r.value.id == Some(id)
      ensures r.None? ==> forall t :: t in rows ==> t.id != Some(id)
    {
      Lookup(rows, id)
    }

    /** Exactly the stored rows of account `accountId`; empty when none. */
    function FindByAccountId(accountId: string): (r: seq<Transaction>)
      reads this
      ensures forall t :: t in r <==> t in rows && t.accountId == Some(accountId)
      ensures forall t :: multiset(r)[t] == if t.accountId == Some(accountId) then multiset(rows)[t] else 0
    {
      Where(rows, (t: Transaction) => t.accountId == Some(accountId))
    }

    /** Exactly the stored rows of credit `creditId`; empty when none. */
    function FindByCreditId(creditId: string): (r: seq<Transaction>)
      reads this
      ensures forall t :: t in r <==> t in rows && t.creditId == Some(creditId)
      ensures forall t :: multiset(r)[t] == if t.creditId == Some(creditId) then multiset(rows)[t] else 0
    {
      Where(rows, (t: Transaction) => t.creditId == Some(creditId))
    }

    /** Exactly the stored rows of customer `customerId`; empty when none. */
    function FindByCustomerId(customerId: string): (r: seq<Transaction>)
      reads this
      ensures forall t :: t in r <==> t in rows && t.customerId == Some(customerId)
      ensures forall t :: multiset(r)[t] == if t.customerId == Some(customerId) then multiset(rows)[t] else 0
    {
      Where(rows, (t: Transaction) => t.customerId == Some(customerId))
    }

    /** Exactly the stored rows of kind `kind`; empty when none. */
    function FindByTransactionType(kind: TransactionType): (r: seq<Transaction>)
      reads this
      ensures forall t :: t in r <==> t in rows && t.transactionType == Some(kind)
      ensures forall t :: multiset(r)[t] == if t.transactionType == Some(kind) then multiset(rows)[t] else 0
    {
      Where(rows, (t: Transaction) => t.transactionType == Some(kind))
    }
  }
}
