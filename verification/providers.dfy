/** The two stores behind the guardian: replayed pages in memory, and final lists under one sequence. */
module Providers {
  import opened Leases
  import opened LeaseSets
  import opened Transactions
  import opened Replays

  datatype Page = Page(revision: nat, leases: seq<Lease>)

  /** A page is created empty, at revision zero, when first asked for. */
  function PageOf(pages: map<string, Page>, resource: string): Page {
    if resource in pages then pages[resource] else Page(0, [])
  }

  ghost predicate SamePages(a: map<string, Page>, b: map<string, Page>) {
    forall r :: PageOf(a, r) == PageOf(b, r)
  }

  /** Committing a log to a page: nothing for an empty log, refused when the revision has moved on. */
  ghost predicate PageCommits(p: Page, revision: nat, ops: seq<Op>, p': Page, ok: bool) {
    if ops == [] then ok && p' == p
    else if p.revision != revision then !ok && p' == p
    else ok && p'.revision == p.revision + 1 && IsSortOf(p'.leases, Replay(p.leases, ops))
  }

  function BucketOf(bucket: map<string, seq<Lease>>, resource: string): seq<Lease> {
    if resource in bucket then bucket[resource] else []
  }

  // ------------------------------------------------------------ both as one

  datatype Store = Mem(pages: map<string, Page>) | Bolt(sequence: nat, bucket: map<string, seq<Lease>>)
  {
    function Revision(resource: string): nat {
      match this
      case Mem(pages) => PageOf(pages, resource).revision
      case Bolt(sequence, _) => sequence
    }

    function Leases(resource: string): seq<Lease> {
      match this
      case Mem(pages) => PageOf(pages, resource).leases
      case Bolt(_, bucket) => BucketOf(bucket, resource)
    }
  }

  /** What either provider's commit does to the store. */
  ghost predicate StoreCommits(st: Store, resource: string, revision: nat, ops: seq<Op>, t: seq<Lease>,
                               st': Store, ok: bool) {
    match st
    case Mem(pages) =>
      && st'.Mem?
      && PageCommits(PageOf(pages, resource), revision, ops, PageOf(st'.pages, resource), ok)
      && forall r :: r != resource ==> PageOf(st'.pages, r) == PageOf(pages, r)
    case Bolt(sequence, bucket) =>
      && ok == (ops == [] || sequence == revision)
      && st' == if !ok || ops == [] then st
                else Bolt(sequence + 1, if t == [] then bucket - {resource} else bucket[resource := t])
  }

  class MemProvider {
    var pages: map<string, Page>

    constructor ()
      ensures pages == map[]
    {
      pages := map[];
    }

    method LeasePage(resource: string) returns (page: Page)
      modifies this
      ensures resource in pages && SamePages(pages, old(pages))
      ensures page == pages[resource] == PageOf(old(pages), resource)
    {
      if resource !in pages {
        pages := pages[resource := Page(0, [])];
      }
      page := pages[resource];
    }

    method LeaseView(resource: string) returns (revision: nat, leases: seq<Lease>)
      modifies this
      ensures SamePages(pages, old(pages))
      ensures Page(revision, leases) == PageOf(old(pages), resource)
    {
      var page := LeasePage(resource);
      revision, leases := page.revision, page.leases;
    }

    method LeaseCommit(tx: Tx) returns (ok: bool)
      modifies this
      ensures StoreCommits(Mem(old(pages)), tx.resource, tx.revision, tx.ops, tx.leases, Mem(pages), ok)
    {
      hide IsSortOf, Replay;
      if tx.ops == [] {
        return true;
      }
      var page := LeasePage(tx.resource);
      if page.revision != tx.revision {
        return false;
      }
      var leases := ReplayOps(page.leases, tx.ops);
      leases := Sort(leases);
      pages := pages[tx.resource := Page(page.revision + 1, leases)];
      return true;
    }
  }

  /** The replay loop of the in-memory provider. */
  method ReplayOps(base: seq<Lease>, ops: seq<Op>) returns (leases: seq<Lease>)
    ensures leases == Replay(base, ops)
  {
    hide ApplyOp, Replay;
    leases := base;
    ReplayNone(base);
    for k := 0 to |ops|
      invariant leases == Replay(base, ops[..k])
    {
      ReplayOne(base, ops[..k], ops[k]);
      assert ops[..k + 1] == ops[..k] + [ops[k]];
      leases := ReplayStep(leases, ops[k]);
    }
    assert ops[..|ops|] == ops;
  }

  lemma ReplayNone(base: seq<Lease>)
    ensures Replay(base, []) == base
  {
  }

  method ReplayStep(s: seq<Lease>, op: Op) returns (leases: seq<Lease>)
    ensures leases == ApplyOp(s, op)
  {
    hide FirstIndex;
    leases := s;
    match op {
      case CreateOp(l) =>
        leases := leases + [l];
      case UpdateOp(p, l) =>
        var i := Index(leases, p.subject.resource, p.subject.instance);
        if i >= 0 {
          leases := leases[i := l];
        }
      case DeleteOp(p) =>
        var i := Index(leases, p.subject.resource, p.subject.instance);
        if i >= 0 {
          leases := leases[..i] + leases[i + 1..];
        }
    }
  }

  /** The bolt bucket, seen as a map with a sequence number that all resources share. */
  class BoltProvider {
    var sequence: nat
    var bucket: map<string, seq<Lease>>

    constructor ()
      ensures sequence == 0 && bucket == map[]
    {
      sequence, bucket := 0, map[];
    }

    method LeaseView(resource: string) returns (revision: nat, leases: seq<Lease>)
      ensures revision == sequence && leases == BucketOf(bucket, resource)
    {
      revision, leases := sequence, if resource in bucket then bucket[resource] else [];
    }

    method LeaseCommit(tx: Tx) returns (ok: bool)
      modifies this
      ensures StoreCommits(Bolt(old(sequence), old(bucket)), tx.resource, tx.revision, tx.ops, tx.leases,
                           Bolt(sequence, bucket), ok)
    {
      if tx.ops == [] {
        return true;
      }
      if sequence != tx.revision {
        return false;
      }
      sequence := sequence + 1;
      if tx.leases == [] {
        bucket := bucket - {tx.resource};
      } else {
        bucket := bucket[tx.resource := tx.leases];
      }
      return true;
    }
  }

  /** Either provider: an attempt succeeds exactly when there is nothing to write or nobody has written
      since it viewed; then the resource holds the transaction's leases, up to the order of ties, provided
      they replay; nothing else changes, and every revision seen before this write is out of date. */
  lemma CommitMeans(st: Store, resource: string, revision: nat, ops: seq<Op>, t: seq<Lease>, st': Store, ok: bool)
    requires StoreCommits(st, resource, revision, ops, t, st', ok)
    requires Sorted(t) && (revision == st.Revision(resource) ==> ReplaysTo(st.Leases(resource), ops, t))
    ensures ok <==> ops == [] || revision == st.Revision(resource)
    ensures ok && ops != [] ==> IsSortOf(st'.Leases(resource), t) && st'.Revision(resource) == st.Revision(resource) + 1
    ensures !ok || ops == [] ==> forall r :: st'.Leases(r) == st.Leases(r) && st'.Revision(r) == st.Revision(r)
    ensures forall r :: r != resource ==> st'.Leases(r) == st.Leases(r)
    ensures ok && ops != [] && st.Bolt? ==> (resource in st'.bucket <==> t != [])
    ensures forall r :: st'.Revision(r) >= st.Revision(r)
  {
    hide Replay, Sorted;
  }
}
