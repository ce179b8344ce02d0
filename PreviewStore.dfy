/**
 * The preview-transaction provider of src/contexts/PreviewTransactionContext.tsx:
 * an ordered list of draft transactions, each living one minute. The clock
 * (`Date.now()`), the random id suffix and the outcome of the server's create
 * call are parameters.
 */
module PreviewStore {
  import opened Wrappers
  import opened Strings
  import opened Seqs
  import opened Transactions

  /** How long a preview lives, in milliseconds. */
  const Lifetime: int := 60000

  /** The id `preview-<now>-<suffix>`. */
  function PreviewIdFor(now: int, suffix: string): (id: string)
    ensures StartsWith(id, "preview-")
  {
    var id := "preview-" + IntToString(now) + "-" + suffix;
    assert id[..8] == "preview-";
    id
  }

  /** The draft built from a create payload: only the four transaction fields are copied. */
  function NewPreview(transaction: TransactionCreate, now: int, suffix: string): Preview {
    Preview(PreviewIdFor(now, suffix), transaction.description, transaction.amount, transaction.kind,
            transaction.transaction_date, None, now, now + Lifetime)
  }

  /** The payload `savePreview` sends for a draft. */
  function CreatePayload(p: Preview): TransactionCreate {
    TransactionCreate(p.description, p.amount, p.kind, p.transaction_date, None)
  }

  function HasId(ps: seq<Preview>, id: string): bool {
    exists i :: 0 <= i < |ps| && ps[i].id == id
  }

  /** `prev.filter(t => t.id !== id)`. */
  function WithoutId(ps: seq<Preview>, id: string): seq<Preview> {
    Filter(ps, (t: Preview) => t.id != id)
  }

  /** `prev.filter(t => t.expiresAt > now)`. */
  function Live(ps: seq<Preview>, now: int): seq<Preview> {
    Filter(ps, (t: Preview) => t.expiresAt > now)
  }

  /** `previewTransactions.find(t => t.id === id)`. */
  function Find(ps: seq<Preview>, id: string): (r: Option<Preview>)
    ensures r.None? <==> !HasId(ps, id)
    ensures r.Some? ==> r.value in ps && r.value.id == id
    ensures r.Some? ==> exists i :: 0 <= i < |ps| && ps[i] == r.value && forall j :: 0 <= j < i ==> ps[j].id != id
  {
    if ps == [] then None
    else if ps[0].id == id then Some(ps[0])
    else
      var r := Find(ps[1..], id);
      assert forall i :: 0 < i < |ps| ==> ps[i] == ps[1..][i - 1];
      r
  }

  predicate DistinctIds(ps: seq<Preview>) {
    forall i, j :: 0 <= i < j < |ps| ==> ps[i].id != ps[j].id
  }

  /** What every draft in the store satisfies. */
  predicate WellFormed(p: Preview) {
    StartsWith(p.id, "preview-") && p.expiresAt == p.createdAt + Lifetime
    && Trim(p.description) != [] && p.amount > 0 && p.category_id == None
  }

  predicate AllWellFormed(ps: seq<Preview>) {
    forall i :: 0 <= i < |ps| ==> WellFormed(ps[i])
  }

  class PreviewStore {
    var previews: seq<Preview>

    ghost predicate Valid()
      reads this
    {
      DistinctIds(previews) && AllWellFormed(previews)
    }

    constructor()
      ensures Valid() && previews == []
    {
      previews := [];
    }

    /**
     * `addPreview`. The caller (the floating transaction form) only offers a
     * payload with a non-blank description and a positive amount, and the
     * random suffix is taken to give an id not in use.
     */
    method AddPreview(transaction: TransactionCreate, now: int, suffix: string)
      requires Valid()
      requires Trim(transaction.description) != [] && transaction.amount > 0
      requires !HasId(previews, PreviewIdFor(now, suffix))
      modifies this
      ensures Valid()
      ensures previews == old(previews) + [NewPreview(transaction, now, suffix)]
    {
      var p := NewPreview(transaction, now, suffix);
      NewPreviewFields(transaction, now, suffix);
      AppendKeepsValid(previews, p);
      previews := previews + [p];
    }

    /** `removePreview`. */
    method RemovePreview(id: string)
      requires Valid()
      modifies this
      ensures Valid()
      ensures previews == WithoutId(old(previews), id)
    {
      var before := previews;
      previews := WithoutId(previews, id);
      WithoutIdKeeps(before, id);
    }

    /**
     * `savePreview`: returns the create request sent (None when the id is
     * unknown). The draft is removed only when the create call succeeds;
     * when it fails the list is left as it was.
     */
    method SavePreview(id: string, createSucceeds: bool) returns (sent: Option<TransactionCreate>)
      requires Valid()
      modifies this
      ensures Valid()
      ensures Find(old(previews), id).None? ==> sent.None? && previews == old(previews)
      ensures Find(old(previews), id).Some? ==>
        sent == Some(CreatePayload(Find(old(previews), id).value))
        && previews == (if createSucceeds then WithoutId(old(previews), id) else old(previews))
    {
      var preview := Find(previews, id);
      if preview.None? {
        return None;
      }
      sent := Some(CreatePayload(preview.value));
      if createSucceeds {
        RemovePreview(id);
      }
    }

    /** `clearExpired`, run every second with the current time. */
    method ClearExpired(now: int)
      requires Valid()
      modifies this
      ensures Valid()
      ensures previews == Live(old(previews), now)
    {
      var before := previews;
      previews := Live(previews, now);
      LiveKeeps(before, now);
    }
  }

  // ---------------------------------------------------------------------
  // Filtering keeps the store well formed

  /** A filtered list keeps distinct ids and well-formed entries. */
  lemma FilterKeepsValid(ps: seq<Preview>, p: Preview -> bool)
    requires DistinctIds(ps) && AllWellFormed(ps)
    ensures DistinctIds(Filter(ps, p)) && AllWellFormed(Filter(ps, p))
  {
    FilterKeepsDistinct(ps, p);
    var r := Filter(ps, p);
    forall i | 0 <= i < |r|
      ensures WellFormed(r[i])
    {
      FilterMember(ps, p, r[i]);
    }
  }

  lemma {:induction false} FilterKeepsDistinct(ps: seq<Preview>, p: Preview -> bool)
    requires DistinctIds(ps)
    ensures DistinctIds(Filter(ps, p))
    decreases |ps|
  {
    if ps != [] {
      var rest := Filter(ps[1..], p);
      FilterKeepsDistinct(ps[1..], p);
      if p(ps[0]) {
        var r := [ps[0]] + rest;
        forall i, j | 0 <= i < j < |r|
          ensures r[i].id != r[j].id
        {
          if i == 0 {
            FilterMember(ps[1..], p, rest[j - 1]);
            TailEntry(ps, rest[j - 1]);
          } else {
            assert r[i] == rest[i - 1] && r[j] == rest[j - 1];
          }
        }
      }
    }
  }

  lemma TailEntry(ps: seq<Preview>, x: Preview)
    requires DistinctIds(ps) && ps != [] && x in ps[1..]
    ensures x.id != ps[0].id
  {
    var k :| 0 <= k < |ps[1..]| && ps[1..][k] == x;
    assert ps[k + 1] == x;
  }

  /** Appending a well-formed draft with a fresh id keeps the store well formed. */
  lemma AppendKeepsValid(ps: seq<Preview>, x: Preview)
    requires DistinctIds(ps) && AllWellFormed(ps) && WellFormed(x) && !HasId(ps, x.id)
    ensures DistinctIds(ps + [x]) && AllWellFormed(ps + [x])
  {
    var r := ps + [x];
    forall i | 0 <= i < |r|
      ensures WellFormed(r[i])
    {
      if i < |ps| {
        assert r[i] == ps[i];
      }
    }
    forall i, j | 0 <= i < j < |r|
      ensures r[i].id != r[j].id
    {
      assert r[i] == ps[i];
      if j < |ps| {
        assert r[j] == ps[j];
      }
    }
  }

  lemma WithoutIdKeeps(ps: seq<Preview>, id: string)
    requires DistinctIds(ps) && AllWellFormed(ps)
    ensures DistinctIds(WithoutId(ps, id)) && AllWellFormed(WithoutId(ps, id))
  {
    FilterKeepsValid(ps, (t: Preview) => t.id != id);
  }

  lemma LiveKeeps(ps: seq<Preview>, now: int)
    requires DistinctIds(ps) && AllWellFormed(ps)
    ensures DistinctIds(Live(ps, now)) && AllWellFormed(Live(ps, now))
  {
    FilterKeepsValid(ps, (t: Preview) => t.expiresAt > now);
  }

  // ---------------------------------------------------------------------
  // Properties of the operations

  /** `removePreview` keeps exactly the entries with another id. */
  lemma WithoutIdMember(ps: seq<Preview>, id: string, x: Preview)
    ensures x in WithoutId(ps, id) <==> x in ps && x.id != id
  {
    FilterMember(ps, (t: Preview) => t.id != id, x);
  }

  /** Removing an unknown id changes nothing. */
  lemma WithoutUnknownId(ps: seq<Preview>, id: string)
    requires !HasId(ps, id)
    ensures WithoutId(ps, id) == ps
  {
    FilterAll(ps, (t: Preview) => t.id != id);
  }

  /** Removing an id twice is removing it once. */
  lemma WithoutIdTwice(ps: seq<Preview>, id: string)
    ensures WithoutId(WithoutId(ps, id), id) == WithoutId(ps, id)
  {
    var r := WithoutId(ps, id);
    assert !HasId(r, id) by {
      forall i | 0 <= i < |r|
        ensures r[i].id != id
      {
        WithoutIdMember(ps, id, r[i]);
      }
    }
    WithoutUnknownId(r, id);
  }

  /** With distinct ids, removing a present id removes exactly one entry. */
  lemma {:induction false} WithoutPresentId(ps: seq<Preview>, id: string)
    requires DistinctIds(ps) && HasId(ps, id)
    ensures |WithoutId(ps, id)| == |ps| - 1
    decreases |ps|
  {
    if ps[0].id == id {
      assert !HasId(ps[1..], id);
      WithoutUnknownId(ps[1..], id);
    } else {
      assert HasId(ps[1..], id) by {
        var i :| 0 <= i < |ps| && ps[i].id == id;
        assert ps[1..][i - 1] == ps[i];
      }
      WithoutPresentId(ps[1..], id);
    }
  }

  /** A new draft is well formed and carries the payload's four fields. */
  lemma NewPreviewFields(transaction: TransactionCreate, now: int, suffix: string)
    requires Trim(transaction.description) != [] && transaction.amount > 0
    ensures WellFormed(NewPreview(transaction, now, suffix))
    ensures CreatePayload(NewPreview(transaction, now, suffix))
      == transaction.(category_id := None)
    ensures NewPreview(transaction, now, suffix).createdAt == now
    ensures NewPreview(transaction, now, suffix).expiresAt == now + 60000
  {
  }

  /** `clearExpired` keeps exactly the entries that expire after now. */
  lemma LiveMember(ps: seq<Preview>, now: int, x: Preview)
    ensures x in Live(ps, now) <==> x in ps && x.expiresAt > now
  {
    FilterMember(ps, (t: Preview) => t.expiresAt > now, x);
  }

  /** A draft survives a sweep at time t exactly while t is under a minute after its creation. */
  lemma Survives(ps: seq<Preview>, t: int, x: Preview)
    requires AllWellFormed(ps)
    ensures x in Live(ps, t) <==> x in ps && t < x.createdAt + 60000
  {
    LiveMember(ps, t, x);
  }

  /** Sweeping at t1 and then at a later t2 is sweeping at t2 alone; in particular sweeping twice at one time is sweeping once. */
  lemma LiveLater(ps: seq<Preview>, t1: int, t2: int)
    requires t1 <= t2
    ensures Live(Live(ps, t1), t2) == Live(ps, t2)
  {
    FilterTwice(ps, (t: Preview) => t.expiresAt > t1, (t: Preview) => t.expiresAt > t2, (t: Preview) => t.expiresAt > t2);
  }

  /** A later sweep removes every entry an earlier sweep removes. */
  lemma LiveMonotone(ps: seq<Preview>, t1: int, t2: int, x: Preview)
    requires t1 <= t2 && x in Live(ps, t2)
    ensures x in Live(ps, t1)
  {
    LiveMember(ps, t1, x);
    LiveMember(ps, t2, x);
  }
}
