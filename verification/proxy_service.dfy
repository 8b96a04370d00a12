/**
 * The in-memory domain-mapping store (internal/services/proxy_service.go).
 *
 * The table is an ordered sequence of mappings. Adding a domain that is
 * already present replaces its entry in place, so the table never holds the
 * same domain twice once it starts without duplicates. The pure functions
 * below state what each operation does to the table; the class `Store`
 * mirrors the Go methods, loops included, and is proved to agree with them.
 * The read/write mutex only serialises these operations and is not modelled.
 */
module ProxyService {
  import opened Wrappers

  datatype Mapping = Mapping(domain: string, destination: string)

  datatype StoreError = NotFound(domain: string)

  /** The one mapping every store starts with. */
  const SeedMapping := Mapping(
    "elizio.sites.kodestech.com.br",
    "https://onm-funnel-builder-stg.s3.us-east-2.amazonaws.com/account_pages/bolo-brigadeiro/index.html")

  function Seed(): seq<Mapping> {
    [SeedMapping]
  }

  /** Some entry of `t` is for domain `d`. */
  predicate HasDomain(t: seq<Mapping>, d: string) {
    exists i :: 0 <= i < |t| && t[i].domain == d
  }

  /** No domain appears in two entries. */
  predicate UniqueDomains(t: seq<Mapping>) {
    forall i, j :: 0 <= i < j < |t| ==> t[i].domain != t[j].domain
  }

  /** The number of entries for domain `d`. */
  function CountDomain(t: seq<Mapping>, d: string): nat
    decreases |t|
  {
    if |t| == 0 then 0
    else (if t[0].domain == d then 1 else 0) + CountDomain(t[1..], d)
  }

  /**
   * The position of the first entry for `d`, scanning in insertion order as
   * every loop of the store does.
   */
  function FindFirst(t: seq<Mapping>, d: string): (r: Option<nat>)
    ensures r.None? <==> !HasDomain(t, d)
    ensures r.Some? ==> r.value < |t| && t[r.value].domain == d
    ensures r.Some? ==> forall i :: 0 <= i < r.value ==> t[i].domain != d
    decreases |t|
  {
    if |t| == 0 then None
    else if t[0].domain == d then Some(0)
    else
      match FindFirst(t[1..], d)
      case None =>
        assert forall i :: 1 <= i < |t| ==> t[i] == t[1..][i - 1];
        None
      case Some(k) => Some(k + 1)
  }

  /** `AddMapping`: replace the first entry for the domain, or append a new one. */
  function Upsert(t: seq<Mapping>, m: Mapping): (r: seq<Mapping>)
    ensures HasDomain(t, m.domain) ==> |r| == |t|
    ensures !HasDomain(t, m.domain) ==> r == t + [m]
    ensures m in r
    ensures HasDomain(t, m.domain) ==> r[FindFirst(t, m.domain).value] == m
    ensures forall i :: 0 <= i < |t| && t[i].domain != m.domain ==> r[i] == t[i]
  {
    match FindFirst(t, m.domain)
    case Some(i) =>
      assert t[i := m][i] == m;
      t[i := m]
    case None => t + [m]
  }

  /** `GetMapping`: the first entry for the domain, or a not-found error. */
  function Lookup(t: seq<Mapping>, d: string): (r: Result<Mapping, StoreError>)
    ensures r.Success? <==> HasDomain(t, d)
    ensures r.Success? ==> r.value in t && r.value.domain == d
    ensures r.Success? ==> r.value == t[FindFirst(t, d).value]
    ensures r.Success? && UniqueDomains(t) ==> forall i :: 0 <= i < |t| && t[i].domain == d ==> t[i] == r.value
    ensures r.Failure? ==> r.error == NotFound(d)
  {
    match FindFirst(t, d)
    case Some(i) => Success(t[i])
    case None => Failure(NotFound(d))
  }

  /**
   * `DeleteMapping`: the table without the first entry for the domain, the
   * others keeping their order; a not-found error when there is none.
   */
  function Remove(t: seq<Mapping>, d: string): (r: Result<seq<Mapping>, StoreError>)
    ensures r.Success? <==> HasDomain(t, d)
    ensures r.Failure? ==> r.error == NotFound(d)
    ensures r.Success? ==> |r.value| == |t| - 1
    ensures r.Success? ==> multiset(r.value) + multiset{Lookup(t, d).value} == multiset(t)
  {
    match FindFirst(t, d)
    case Some(i) =>
      assert t == t[..i] + [t[i]] + t[i + 1..];
      Success(t[..i] + t[i + 1..])
    case None => Failure(NotFound(d))
  }

  // ---------------------------------------------------------------------
  // Properties of the table operations
  // ---------------------------------------------------------------------

  /**
   * Deleting keeps the entries before the removed one where they were and
   * moves every entry after it one place down.
   */
  lemma RemoveKeepsOrder(t: seq<Mapping>, d: string)
    requires HasDomain(t, d)
    ensures var k := FindFirst(t, d).value;
            && (forall i :: 0 <= i < k ==> Remove(t, d).value[i] == t[i])
            && (forall i :: k < i < |t| ==> Remove(t, d).value[i - 1] == t[i])
  {
    var k := FindFirst(t, d).value;
    DropAt(t, k);
    assert Remove(t, d).value == t[..k] + t[k + 1..];
  }

  /** The seed table holds one entry, so no duplicates. */
  lemma SeedUnique()
    ensures UniqueDomains(Seed()) && |Seed()| == 1
    ensures Lookup(Seed(), SeedMapping.domain) == Success(SeedMapping)
  {
  }

  /** After adding a mapping, its domain resolves to exactly that mapping. */
  lemma LookupAfterUpsert(t: seq<Mapping>, m: Mapping)
    ensures Lookup(Upsert(t, m), m.domain) == Success(m)
  {
    var r := Upsert(t, m);
    match FindFirst(t, m.domain)
    case Some(i) =>
      assert r[i] == m;
      assert forall j :: 0 <= j < i ==> r[j] == t[j];
    case None =>
      assert r[|t|] == m;
  }

  /** Adding a mapping leaves every other domain's lookup as it was. */
  lemma LookupOtherAfterUpsert(t: seq<Mapping>, m: Mapping, d: string)
    requires d != m.domain
    ensures Lookup(Upsert(t, m), d) == Lookup(t, d)
  {
    var r := Upsert(t, m);
    assert forall i :: 0 <= i < |t| && t[i].domain == d ==> r[i] == t[i];
    assert forall i :: 0 <= i < |r| && r[i].domain == d ==> i < |t| && r[i] == t[i];
  }

  /** Adding keeps the table free of duplicate domains. */
  lemma UpsertPreservesUnique(t: seq<Mapping>, m: Mapping)
    requires UniqueDomains(t)
    ensures UniqueDomains(Upsert(t, m))
  {
    var r := Upsert(t, m);
    match FindFirst(t, m.domain)
    case Some(k) =>
      forall i, j | 0 <= i < j < |r|
        ensures r[i].domain != r[j].domain
      {
        if i == k {
          assert t[k].domain == m.domain;
        } else if j == k {
          assert t[k].domain == m.domain;
        }
      }
    case None =>
  }

  /** Adding the same mapping twice is the same as adding it once. */
  lemma UpsertIdempotent(t: seq<Mapping>, m: Mapping)
    ensures Upsert(Upsert(t, m), m) == Upsert(t, m)
  {
    var r := Upsert(t, m);
    match FindFirst(t, m.domain)
    case Some(i) =>
      assert r[i] == m;
      assert forall j :: 0 <= j < i ==> r[j] == t[j];
      assert FindFirst(r, m.domain) == Some(i);
    case None =>
      assert forall j :: 0 <= j < |t| ==> r[j] == t[j];
      assert FindFirst(r, m.domain) == Some(|t|);
  }

  lemma {:induction false} CountUnique(t: seq<Mapping>, d: string)
    requires UniqueDomains(t)
    ensures CountDomain(t, d) == (if HasDomain(t, d) then 1 else 0)
    decreases |t|
  {
    if |t| > 0 {
      var u := t[1..];
      assert UniqueDomains(u) by {
        forall i, j | 0 <= i < j < |u|
          ensures u[i].domain != u[j].domain
        {
          assert u[i] == t[i + 1] && u[j] == t[j + 1];
        }
      }
      CountUnique(u, d);
      assert forall i :: 1 <= i < |t| ==> t[i] == u[i - 1];
      if t[0].domain == d {
        assert !HasDomain(u, d) by {
          forall i | 0 <= i < |u|
            ensures u[i].domain != d
          {
            assert u[i] == t[i + 1];
          }
        }
      } else {
        assert HasDomain(t, d) ==> HasDomain(u, d) by {
          if HasDomain(t, d) {
            var i :| 0 <= i < |t| && t[i].domain == d;
            assert u[i - 1].domain == d;
          }
        }
      }
    }
  }

  /**
   * Re-adding a domain with a new destination leaves exactly one entry for
   * it, and that entry carries the newer destination.
   */
  lemma UpsertTwiceKeepsOneEntry(t: seq<Mapping>, host: string, first: string, second: string)
    requires UniqueDomains(t)
    ensures CountDomain(Upsert(Upsert(t, Mapping(host, first)), Mapping(host, second)), host) == 1
    ensures Lookup(Upsert(Upsert(t, Mapping(host, first)), Mapping(host, second)), host) == Success(Mapping(host, second))
  {
    var t1 := Upsert(t, Mapping(host, first));
    var t2 := Upsert(t1, Mapping(host, second));
    UpsertPreservesUnique(t, Mapping(host, first));
    UpsertPreservesUnique(t1, Mapping(host, second));
    LookupAfterUpsert(t1, Mapping(host, second));
    CountUnique(t2, host);
  }

  /** With unique domains, deleting a domain makes it unknown and keeps the table unique. */
  lemma RemoveForgets(t: seq<Mapping>, d: string)
    requires UniqueDomains(t) && HasDomain(t, d)
    ensures UniqueDomains(Remove(t, d).value)
    ensures Lookup(Remove(t, d).value, d).Failure?
  {
    var k := FindFirst(t, d).value;
    assert Remove(t, d).value == t[..k] + t[k + 1..];
    UniqueAfterDrop(t, k);
  }

  /** Without entry `k`, a table with unique domains stays unique and no longer holds `k`'s domain. */
  lemma UniqueAfterDrop(t: seq<Mapping>, k: nat)
    requires k < |t| && UniqueDomains(t)
    ensures UniqueDomains(t[..k] + t[k + 1..])
    ensures !HasDomain(t[..k] + t[k + 1..], t[k].domain)
  {
    DropAt(t, k);
    var r := t[..k] + t[k + 1..];
    forall i | 0 <= i < |r|
      ensures r[i] == t[Skip(i, k)]
    {
      if i >= k {
        assert r[(i + 1) - 1] == t[i + 1];
      }
    }
  }

  /** The position in the full table of entry `i` of the table without entry `k`. */
  function Skip(i: nat, k: nat): (j: nat)
    ensures j != k && (j < k <==> i < k)
    ensures i < j ==> j == i + 1
  {
    if i < k then i else i + 1
  }

  /** The table without entry `k`: the entries before it stay, the ones after it move down by one. */
  lemma DropAt(t: seq<Mapping>, k: nat)
    requires k < |t|
    ensures |t[..k] + t[k + 1..]| == |t| - 1
    ensures forall i :: 0 <= i < k ==> (t[..k] + t[k + 1..])[i] == t[i]
    ensures forall i :: k < i < |t| ==> (t[..k] + t[k + 1..])[i - 1] == t[i]
  {
  }

  /** An entry for `e` with none before it is the first one. */
  lemma FirstAt(t: seq<Mapping>, e: string, j: nat)
    requires j < |t| && t[j].domain == e
    requires forall i :: 0 <= i < j ==> t[i].domain != e
    ensures FindFirst(t, e) == Some(j)
  {
  }

  /** Without entry `k`, a domain absent from the table is still absent. */
  lemma AbsentAfterDrop(t: seq<Mapping>, k: nat, e: string)
    requires k < |t| && !HasDomain(t, e)
    ensures !HasDomain(t[..k] + t[k + 1..], e)
  {
    DropAt(t, k);
    var r := t[..k] + t[k + 1..];
    forall i | 0 <= i < |r|
      ensures r[i].domain != e
    {
      if i >= k {
        assert r[(i + 1) - 1] == t[i + 1];
      }
    }
  }

  /** Without entry `k`, the first entry `j` for another domain stays first, one place down if it came after `k`. */
  lemma FirstAfterDrop(t: seq<Mapping>, k: nat, e: string, j: nat)
    requires k < |t| && t[k].domain != e && FindFirst(t, e) == Some(j)
    ensures FindFirst(t[..k] + t[k + 1..], e) == Some(if j < k then j else j - 1)
  {
    if j < k {
      DropAt(t, k);
      FirstAt(t[..k] + t[k + 1..], e, j);
    } else {
      FirstShiftsDown(t, k, e, j);
    }
  }

  lemma FirstShiftsDown(t: seq<Mapping>, k: nat, e: string, j: nat)
    requires k < j < |t| && t[j].domain == e
    requires forall i :: 0 <= i < j ==> t[i].domain != e
    ensures FindFirst(t[..k] + t[k + 1..], e) == Some(j - 1)
  {
    DropAt(t, k);
    var r := t[..k] + t[k + 1..];
    forall i | 0 <= i < j - 1
      ensures r[i].domain != e
    {
      if i >= k {
        assert r[(i + 1) - 1] == t[i + 1];
      }
    }
    FirstAt(r, e, j - 1);
  }

  /** Deleting one domain leaves every other domain's lookup as it was. */
  lemma LookupOtherAfterRemove(t: seq<Mapping>, d: string, e: string)
    requires HasDomain(t, d) && e != d
    ensures Lookup(Remove(t, d).value, e) == Lookup(t, e)
  {
    var k := FindFirst(t, d).value;
    assert Remove(t, d).value == t[..k] + t[k + 1..];
    match FindFirst(t, e)
    case None =>
      AbsentAfterDrop(t, k, e);
    case Some(j) =>
      FirstAfterDrop(t, k, e, j);
  }

  // ---------------------------------------------------------------------
  // The store as the Go methods walk it
  // ---------------------------------------------------------------------

  /** The position of the first entry for `d`, found by the range loop the methods share. */
  method FindIndex(t: seq<Mapping>, d: string) returns (found: bool, index: nat)
    ensures found <==> HasDomain(t, d)
    ensures found ==> FindFirst(t, d) == Some(index)
  {
    var i := 0;
    while i < |t|
      invariant 0 <= i <= |t|
      invariant forall j :: 0 <= j < i ==> t[j].domain != d
    {
      if t[i].domain == d {
        return true, i;
      }
      i := i + 1;
    }
    return false, 0;
  }

  class Store {
    var mappings: seq<Mapping>

    /** Every reachable table holds each domain at most once. */
    predicate Valid()
      reads this
    {
      UniqueDomains(mappings)
    }

    /** `NewProxyService`: a store holding the seed mapping. */
    constructor ()
      ensures mappings == Seed() && Valid()
    {
      mappings := Seed();
      SeedUnique();
    }

    /** `AddMapping`: never reports an error. */
    method AddMapping(m: Mapping)
      requires Valid()
      modifies this
      ensures mappings == Upsert(old(mappings), m) && Valid()
    {
      UpsertPreservesUnique(mappings, m);
      var found, i := FindIndex(mappings, m.domain);
      if found {
        mappings := mappings[i := m];
      } else {
        mappings := mappings + [m];
      }
    }

    method GetMapping(d: string) returns (r: Result<Mapping, StoreError>)
      ensures r == Lookup(mappings, d)
      ensures Valid() && r.Success? ==> forall i :: 0 <= i < |mappings| && mappings[i].domain == d ==> mappings[i] == r.value
    {
      var i := 0;
      while i < |mappings|
        invariant 0 <= i <= |mappings|
        invariant forall j :: 0 <= j < i ==> mappings[j].domain != d
      {
        if mappings[i].domain == d {
          assert FindFirst(mappings, d) == Some(i);
          return Success(mappings[i]);
        }
        i := i + 1;
      }
      return Failure(NotFound(d));
    }

    /** `GetAllMappings`: a copy of the table in insertion order. */
    method GetAllMappings() returns (r: seq<Mapping>)
      ensures r == mappings
    {
      r := mappings;
    }

    /** `DeleteMapping`: on a miss the table is left unchanged. */
    method DeleteMapping(d: string) returns (err: Option<StoreError>)
      requires Valid()
      modifies this
      ensures Remove(old(mappings), d).Success? ==> err == None && mappings == Remove(old(mappings), d).value
      ensures Remove(old(mappings), d).Failure? ==> err == Some(NotFound(d)) && mappings == old(mappings)
      ensures Valid()
    {
      if HasDomain(mappings, d) {
        RemoveForgets(mappings, d);
      }
      var found, i := FindIndex(mappings, d);
      if found {
        mappings := mappings[..i] + mappings[i + 1..];
        err := None;
      } else {
        err := Some(NotFound(d));
      }
    }
  }
}
