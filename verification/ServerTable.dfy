/** ServerList: a list kept strictly descending by interface name, searched with
    std::lower_bound, and shown to agree with a linear scan. */
module ServerTable {
  import opened BrokerTypes

  /** strcmp(a, b) < 0 on NUL-free strings. */
  predicate Less(a: string, b: string) {
    b != [] && (a == [] || a[0] < b[0] || (a[0] == b[0] && Less(a[1..], b[1..])))
  }

  lemma {:induction false} LessTrans(a: string, b: string, c: string)
    requires Less(a, b) && Less(b, c)
    ensures Less(a, c)
  {
    if a != [] && a[0] == b[0] && b[0] == c[0] {
      LessTrans(a[1..], b[1..], c[1..]);
    }
  }

  lemma {:induction false} LessTotal(a: string, b: string)
    ensures Less(a, b) || Less(b, a) || a == b
    ensures !(Less(a, b) && Less(b, a))
    ensures a == b ==> !Less(a, b)
  {
    if a != [] && b != [] {
      LessTotal(a[1..], b[1..]);
      assert a == [a[0]] + a[1..] && b == [b[0]] + b[1..];
    }
  }

  ghost predicate Descending(entries: seq<Server>) {
    forall i, j :: 0 <= i < j < |entries| ==> Less(entries[j].iface.name, entries[i].iface.name)
  }

  /** The reference: the first entry with this name, by scanning. */
  function Scan(entries: seq<Server>, name: string): (r: Option<Server>)
    ensures r.Some? ==> r.value in entries && r.value.iface.name == name
    ensures r.None? ==> forall e :: e in entries ==> e.iface.name != name
  {
    if entries == [] then None
    else if entries[0].iface.name == name then Some(entries[0])
    else Scan(entries[1..], name)
  }

  /** An entry of that name whose version satisfies the request. */
  function ScanVersion(entries: seq<Server>, wanted: Iface): (r: Option<Server>)
    ensures r.Some? ==> r.value in entries && Accepts(wanted, r.value.iface)
  {
    var e := Scan(entries, wanted.name);
    if e.Some? && e.value.iface.major == wanted.major && e.value.iface.minor >= wanted.minor then e else None
  }

  function ScanId(entries: seq<Server>, id: PartyId): (r: Option<Server>)
    ensures r.Some? ==> r.value in entries && r.value.id == id
    ensures r.None? ==> forall e :: e in entries ==> e.id != id
  {
    if entries == [] then None
    else if entries[0].id == id then Some(entries[0])
    else ScanId(entries[1..], id)
  }

  lemma NamesUnique(entries: seq<Server>, i: nat, j: nat)
    requires Descending(entries) && i < |entries| && j < |entries|
    requires entries[i].iface.name == entries[j].iface.name
    ensures i == j
  {
    LessTotal(entries[i].iface.name, entries[j].iface.name);
  }

  /** On a sorted table a lookup by description finds an entry exactly when some
      entry of the table satisfies the request. */
  lemma ScanVersionComplete(entries: seq<Server>, wanted: Iface)
    requires Descending(entries)
    ensures ScanVersion(entries, wanted).Some? <==> exists e :: e in entries && Accepts(wanted, e.iface)
  {
    forall e | e in entries && Accepts(wanted, e.iface)
      ensures ScanVersion(entries, wanted).Some?
    {
      var f := Scan(entries, wanted.name);
      var i :| 0 <= i < |entries| && entries[i] == e;
      var j :| 0 <= j < |entries| && entries[j] == f.value;
      NamesUnique(entries, i, j);
    }
  }

  /** std::lower_bound with the comparison `0 < strcmp`. */
  method LowerBound(entries: seq<Server>, name: string) returns (first: nat)
    requires Descending(entries)
    ensures first <= |entries|
    ensures forall i :: 0 <= i < first ==> Less(name, entries[i].iface.name)
    ensures forall i :: first <= i < |entries| ==> !Less(name, entries[i].iface.name)
  {
    first := 0;
    var len := |entries|;
    while len > 0
      invariant 0 <= len && first + len <= |entries|
      invariant forall i :: 0 <= i < first ==> Less(name, entries[i].iface.name)
      invariant forall i :: first + len <= i < |entries| ==> !Less(name, entries[i].iface.name)
    {
      var half := len / 2;
      var mid := first + half;
      if Less(name, entries[mid].iface.name) {
        forall i | 0 <= i < mid ensures Less(name, entries[i].iface.name) {
          LessTrans(name, entries[mid].iface.name, entries[i].iface.name);
        }
        first, len := mid + 1, len - half - 1;
      } else {
        forall i | mid < i < |entries| ensures !Less(name, entries[i].iface.name) {
          if Less(name, entries[i].iface.name) {
            LessTrans(name, entries[i].iface.name, entries[mid].iface.name);
          }
        }
        len := half;
      }
    }
  }

  /** ServerList::find(const char*): the binary search agrees with the scan. */
  method FindByName(entries: seq<Server>, name: string) returns (r: Option<Server>)
    requires Descending(entries)
    ensures r == Scan(entries, name)
  {
    var first := LowerBound(entries, name);
    if first < |entries| && !Less(entries[first].iface.name, name) {
      LessTotal(entries[first].iface.name, name);
      r := Some(entries[first]);
      var e := Scan(entries, name);
      var j :| 0 <= j < |entries| && entries[j] == e.value;
      NamesUnique(entries, first, j);
    } else {
      r := None;
      forall e | e in entries ensures e.iface.name != name {
        var i :| 0 <= i < |entries| && entries[i] == e;
        LessTotal(name, e.iface.name);
        assert i <= first || Less(e.iface.name, entries[first].iface.name);
      }
    }
  }

  /** ServerList::find(SFNDInterfaceDescription). */
  method FindByVersion(entries: seq<Server>, wanted: Iface) returns (r: Option<Server>)
    requires Descending(entries)
    ensures r == ScanVersion(entries, wanted)
  {
    r := FindByName(entries, wanted.name);
    if !(r.Some? && r.value.iface.major == wanted.major && r.value.iface.minor >= wanted.minor) {
      r := None;
    }
  }

  /** Where a new entry goes: behind every greater name. */
  function Slot(entries: seq<Server>, name: string): (p: nat)
    ensures p <= |entries|
    ensures forall i :: 0 <= i < p ==> Less(name, entries[i].iface.name)
    ensures p < |entries| ==> !Less(name, entries[p].iface.name)
  {
    if entries == [] || !Less(name, entries[0].iface.name) then 0 else 1 + Slot(entries[1..], name)
  }

  function Inserted(entries: seq<Server>, e: Server): (r: seq<Server>)
    ensures forall x :: x in r <==> x == e || x in entries
  {
    var p := Slot(entries, e.iface.name);
    assert entries == entries[..p] + entries[p..];
    entries[..p] + [e] + entries[p..]
  }

  /** ServerList::remove: drops the first entry with the ID. */
  function Removed(entries: seq<Server>, id: PartyId): seq<Server> {
    if entries == [] then []
    else if entries[0].id == id then entries[1..]
    else [entries[0]] + Removed(entries[1..], id)
  }

  lemma {:induction false} RemovedMembers(entries: seq<Server>, id: PartyId)
    ensures forall x :: x in Removed(entries, id) ==> x in entries
    ensures forall x :: x in entries && x.id != id ==> x in Removed(entries, id)
  {
    if entries != [] && entries[0].id != id {
      RemovedMembers(entries[1..], id);
    }
  }

  /** Guarded insertion keeps the table strictly descending. */
  lemma InsertKeepsOrder(entries: seq<Server>, e: Server)
    requires Descending(entries)
    requires Scan(entries, e.iface.name).None?
    ensures Descending(Inserted(entries, e))
  {
    var p := Slot(entries, e.iface.name);
    var r := Inserted(entries, e);
    forall i, j | 0 <= i < j < |r| ensures Less(r[j].iface.name, r[i].iface.name) {
      if i == p {
        assert r[j] == entries[j - 1];
        assert entries[p] in entries;
        LessTotal(e.iface.name, entries[p].iface.name);
        if j - 1 > p {
          LessTrans(entries[j - 1].iface.name, entries[p].iface.name, e.iface.name);
        }
      } else if j == p {
        assert r[i] == entries[i];
      } else if i < p < j {
        assert r[i] == entries[i] && r[j] == entries[j - 1];
      } else if j < p {
        assert r[i] == entries[i] && r[j] == entries[j];
      } else {
        assert r[i] == entries[i - 1] && r[j] == entries[j - 1];
      }
    }
  }

  ghost predicate DistinctIds(entries: seq<Server>) {
    forall i, j :: 0 <= i < j < |entries| ==> entries[i].id != entries[j].id
  }

  /** Removal keeps the order, and with distinct IDs it removes exactly one entry. */
  lemma {:induction false} RemoveKeepsOrder(entries: seq<Server>, id: PartyId)
    requires Descending(entries)
    ensures Descending(Removed(entries, id))
    ensures DistinctIds(entries) ==> DistinctIds(Removed(entries, id))
    ensures DistinctIds(entries) ==> forall x :: x in Removed(entries, id) ==> x.id != id
  {
    if entries != [] && entries[0].id != id {
      var tail := entries[1..];
      RemoveKeepsOrder(tail, id);
      assert DistinctIds(entries) ==> DistinctIds(tail);
      RemovedMembers(tail, id);
      var r := Removed(tail, id);
      forall j | 0 <= j < |r|
        ensures Less(r[j].iface.name, entries[0].iface.name)
        ensures DistinctIds(entries) ==> r[j].id != entries[0].id
      {
        assert r[j] in tail;
      }
    }
  }

  lemma {:induction false} SlotUnique(entries: seq<Server>, name: string, p: nat)
    requires p <= |entries|
    requires forall i :: 0 <= i < p ==> Less(name, entries[i].iface.name)
    requires forall i :: p <= i < |entries| ==> !Less(name, entries[i].iface.name)
    ensures p == Slot(entries, name)
  {
    if p > 0 {
      SlotUnique(entries[1..], name, p - 1);
    }
  }

  lemma {:induction false} RemovedSplit(entries: seq<Server>, id: PartyId, i: nat)
    requires i <= |entries|
    requires forall j :: 0 <= j < i ==> entries[j].id != id
    ensures Removed(entries, id) == entries[..i] + Removed(entries[i..], id)
  {
    if i > 0 {
      RemovedSplit(entries[1..], id, i - 1);
      assert entries[1..][..i - 1] == entries[1..i] && entries[1..][i - 1..] == entries[i..];
    }
  }

  /** ServerList::add, which finds its place by binary search. */
  method Add(entries: seq<Server>, e: Server) returns (r: seq<Server>)
    requires Descending(entries)
    ensures r == Inserted(entries, e)
  {
    var p := LowerBound(entries, e.iface.name);
    SlotUnique(entries, e.iface.name, p);
    r := entries[..p] + [e] + entries[p..];
  }

  /** ServerList::remove as the loop that erases the first hit. */
  method RemoveById(entries: seq<Server>, id: PartyId) returns (r: seq<Server>)
    ensures r == Removed(entries, id)
  {
    for i := 0 to |entries|
      invariant forall j :: 0 <= j < i ==> entries[j].id != id
    {
      if entries[i].id == id {
        RemovedSplit(entries, id, i);
        return entries[..i] + entries[i + 1..];
      }
    }
    RemovedSplit(entries, id, |entries|);
    return entries;
  }

  method FindById(entries: seq<Server>, id: PartyId) returns (r: Option<Server>)
    ensures r == ScanId(entries, id)
  {
    r := None;
    var i := 0;
    while i < |entries|
      invariant i <= |entries|
      invariant ScanId(entries, id) == ScanId(entries[i..], id)
    {
      if entries[i].id == id { return Some(entries[i]); }
      i := i + 1;
    }
  }
}
