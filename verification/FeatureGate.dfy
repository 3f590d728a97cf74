/**
  The feature gate registry: a map of gates whose enabled bits change in place, and the
  visit that hides the map's iteration order behind a sort.
*/
module FeatureGate {
  import opened Text

  // ------------------------------------------------------ sorted listings

  predicate Increasing(names: seq<string>) {
    forall i, j :: 0 <= i < j < |names| ==> Less(names[i], names[j])
  }

  /** names holds every element of the set once, in strictly increasing order. */
  ghost predicate Lists(names: seq<string>, all: set<string>) {
    Increasing(names) && (forall n :: n in names <==> n in all)
  }

  function Insert(names: seq<string>, n: string): seq<string> {
    if names == [] || Less(n, names[0]) then [n] + names
    else [names[0]] + Insert(names[1..], n)
  }

  lemma {:induction false} InsertSorted(names: seq<string>, n: string)
    requires Increasing(names) && n !in names
    ensures Increasing(Insert(names, n))
    ensures forall x :: x in Insert(names, n) <==> x == n || x in names
  {
    if names == [] {
    } else if Less(n, names[0]) {
      forall j | 0 < j < |names| ensures Less(n, names[j]) {
        LessTransitive(n, names[0], names[j]);
      }
    } else {
      LessTotal(n, names[0]);
      InsertSorted(names[1..], n);
      var rest := Insert(names[1..], n);
      forall j | 0 <= j < |rest| ensures Less(names[0], rest[j]) {
        assert rest[j] in rest;
        if rest[j] != n {
          assert rest[j] in names[1..];
        }
      }
      assert names == [names[0]] + names[1..];
    }
  }

  /** The sorted listing of a set of names, whatever order it is built in. */
  ghost function SortedNames(all: set<string>): (names: seq<string>)
    ensures Lists(names, all)
  {
    if all == {} then []
    else
      var n :| n in all;
      InsertSorted(SortedNames(all - {n}), n);
      Insert(SortedNames(all - {n}), n)
  }

  lemma {:induction false} ListingHead(a: seq<string>, b: seq<string>, all: set<string>)
    requires Lists(a, all) && Lists(b, all) && a != []
    ensures b != [] && a[0] == b[0]
    ensures Lists(a[1..], all - {a[0]})
  {
    assert a[0] in all && a[0] in b;
    assert b[0] in all && b[0] in a;
    LessTotal(a[0], b[0]);
    forall n ensures n in a[1..] <==> n in all - {a[0]} {
      assert n in a <==> n == a[0] || n in a[1..];
      LessTotal(a[0], n);
    }
  }

  /** There is only one sorted listing, so sorting hides any iteration order. */
  lemma {:induction false} ListingUnique(a: seq<string>, b: seq<string>, all: set<string>)
    requires Lists(a, all) && Lists(b, all)
    ensures a == b
  {
    if a == [] {
      if b != [] {
        ListingHead(b, a, all);
      }
    } else {
      ListingHead(a, b, all);
      ListingHead(b, a, all);
      ListingUnique(a[1..], b[1..], all - {a[0]});
    }
  }

  // ---------------------------------------------------------------- gates

  class Gate {
    const name: string
    const description: string
    var enabled: bool

    constructor (name: string, description: string, enabled: bool)
      ensures this.name == name && this.description == description && this.enabled == enabled
    {
      this.name, this.description, this.enabled := name, description, enabled;
    }
  }

  datatype RegisterError = AlreadyRegistered(name: string)

  datatype UnknownGate = UnknownGate(name: string, validGates: seq<string>)

  predicate DistinctNames(gates: seq<Gate>) {
    forall i, j :: 0 <= i < j < |gates| ==> gates[i].name != gates[j].name
  }

  predicate SortedUpTo(gates: seq<Gate>, n: nat)
    requires n <= |gates|
  {
    forall i, j :: 0 <= i < j < n ==> Less(gates[i].name, gates[j].name)
  }

  ghost predicate SameGates(a: seq<Gate>, b: seq<Gate>) {
    |a| == |b| && (forall g :: g in a ==> g in b) && (forall g :: g in b ==> g in a)
  }

  lemma SwapKeepsGates(s: seq<Gate>, j: nat)
    requires 0 < j < |s| && DistinctNames(s)
    ensures var t := s[j - 1 := s[j]][j := s[j - 1]]; DistinctNames(t) && SameGates(s, t)
  {
    var t := s[j - 1 := s[j]][j := s[j - 1]];
    forall g ensures g in s <==> g in t {
      if g in s {
        var k :| 0 <= k < |s| && s[k] == g;
        assert g == t[if k == j then j - 1 else if k == j - 1 then j else k];
      }
      if g in t {
        var k :| 0 <= k < |t| && t[k] == g;
        assert g == s[if k == j then j - 1 else if k == j - 1 then j else k];
      }
    }
  }

  /** sort.Slice by name, in place. */
  method SortByName(gates: array<Gate>)
    requires DistinctNames(gates[..])
    modifies gates
    ensures SortedUpTo(gates[..], gates.Length)
    ensures SameGates(old(gates[..]), gates[..])
  {
    for i := 0 to gates.Length
      invariant SortedUpTo(gates[..], i) && DistinctNames(gates[..])
      invariant SameGates(old(gates[..]), gates[..])
    {
      InsertAt(gates, i);
    }
  }

  method InsertAt(gates: array<Gate>, i: nat)
    requires i < gates.Length && SortedUpTo(gates[..], i) && DistinctNames(gates[..])
    modifies gates
    ensures SortedUpTo(gates[..], i + 1) && DistinctNames(gates[..])
    ensures SameGates(old(gates[..]), gates[..])
  {
    var j := i;
    while j > 0 && Less(gates[j].name, gates[j - 1].name)
      invariant 0 <= j <= i
      invariant DistinctNames(gates[..]) && SameGates(old(gates[..]), gates[..])
      invariant forall a, b :: 0 <= a < b <= i && b != j && a != j ==> Less(gates[a].name, gates[b].name)
      invariant forall b :: j < b <= i ==> Less(gates[j].name, gates[b].name)
    {
      ghost var before := gates[..];
      SwapKeepsGates(before, j);
      gates[j - 1], gates[j] := gates[j], gates[j - 1];
      assert gates[..] == before[j - 1 := before[j]][j := before[j - 1]];
      j := j - 1;
    }
    if j > 0 {
      LessTotal(gates[j].name, gates[j - 1].name);
      forall a | 0 <= a < j ensures Less(gates[a].name, gates[j].name) {
        assert gates[..][j - 1].name != gates[..][j].name;
        if a < j - 1 {
          LessTransitive(gates[a].name, gates[j - 1].name, gates[j].name);
        }
      }
    }
  }

  class Registry {
    var gates: map<string, Gate>

    constructor ()
      ensures gates == map[]
    {
      gates := map[];
    }

    /** Every gate is stored under its own name. */
    ghost predicate Valid()
      reads this
    {
      forall n :: n in gates ==> gates[n].name == n
    }

    /** The abstract value: which gate names exist, and which are on. */
    ghost function States(): (states: map<string, bool>)
      reads this, gates.Values
    {
      map n | n in gates :: gates[n].enabled
    }

    /** A second gate of the same name is refused; the operator's registry panics there. */
    method Register(name: string, description: string, defaultEnabled: bool)
      returns (r: Result<Gate, RegisterError>)
      requires Valid()
      modifies this
      ensures Valid()
      ensures r.Err? <==> name in old(gates)
      ensures r.Err? ==> gates == old(gates)
      ensures r.Ok? ==> fresh(r.value) && gates == old(gates)[name := r.value]
      ensures r.Ok? ==> States() == old(States())[name := defaultEnabled]
    {
      var gate := new Gate(name, description, defaultEnabled);
      if name in gates {
        return Err(AlreadyRegistered(name));
      }
      gates := gates[name := gate];
      return Ok(gate);
    }

    method Get(name: string) returns (gate: Gate?)
      ensures gate != null <==> name in gates
      ensures gate != null ==> gate == gates[name]
    {
      if name in gates {
        return gates[name];
      }
      return null;
    }

    /** The gates in the order the visitor sees them: the map is ranged in any order at all. */
    method VisitAll() returns (visited: seq<Gate>)
      requires Valid()
      ensures |visited| == |SortedNames(gates.Keys)|
      ensures forall i :: 0 <= i < |visited| ==>
        visited[i].name == SortedNames(gates.Keys)[i] && visited[i].name in gates && gates[visited[i].name] == visited[i]
    {
      var ranged: seq<Gate> := [];
      var rest := gates.Keys;
      while rest != {}
        invariant rest <= gates.Keys && DistinctNames(ranged)
        invariant forall g :: g in ranged ==> g.name in gates && g.name !in rest && gates[g.name] == g
        invariant forall n :: n in gates && n !in rest ==> gates[n] in ranged
      {
        var key :| key in rest;
        assert forall g :: g in ranged ==> g.name != key;
        ranged := ranged + [gates[key]];
        rest := rest - {key};
      }
      var slice := new Gate[|ranged|](i requires 0 <= i < |ranged| => ranged[i]);
      assert slice[..] == ranged;
      SortByName(slice);
      visited := slice[..];
      ghost var names := seq(|visited|, i requires 0 <= i < |visited| => visited[i].name);
      forall n ensures n in names <==> n in gates.Keys {
        if n in gates {
          assert gates[n] in visited;
          var i :| 0 <= i < |visited| && visited[i] == gates[n];
          assert names[i] == n;
        }
        if n in names {
          var i :| 0 <= i < |names| && names[i] == n;
          assert visited[i] in ranged;
        }
      }
      ListingUnique(names, SortedNames(gates.Keys), gates.Keys);
      forall i | 0 <= i < |visited|
        ensures visited[i].name == SortedNames(gates.Keys)[i] && visited[i].name in gates && gates[visited[i].name] == visited[i]
      {
        assert names[i] == visited[i].name && visited[i] in ranged;
      }
    }

    method Set(name: string, enabled: bool) returns (err: Option<UnknownGate>)
      requires Valid()
      modifies gates.Values
      ensures Valid() && gates == old(gates)
      ensures name in gates ==> err == None && States() == old(States())[name := enabled]
      ensures name !in gates ==>
        err == Some(UnknownGate(name, SortedNames(gates.Keys))) && States() == old(States())
    {
      var gate := Get(name);
      if gate == null {
        var validGates: seq<string> := [];
        var visited := VisitAll();
        for i := 0 to |visited|
          invariant validGates == SortedNames(gates.Keys)[..i]
        {
          validGates := validGates + [visited[i].name];
        }
        assert validGates == SortedNames(gates.Keys);
        return Some(UnknownGate(name, validGates));
      }
      gate.enabled := enabled;
      assert forall n :: n in gates && n != name ==> gates[n] != gate;
      return None;
    }
  }
}
