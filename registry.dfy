/**
  The hub's spoke registry: a table from spoke name to the spoke's
  metadata (capabilities, endpoint and a mutable status), queried by
  capability. The table keeps its keys in first-registration order, as a
  dictionary that is only ever written to does.
 */
module Registry {

  /** What a spoke can be asked to assess. */
  datatype SpokeCapability = Aml | Fraud | Credit | Compliance

  const Active: string := "active"

  /** One registered spoke; only its status changes after registration. */
  class SpokeMetadata {
    const name: string
    const capabilities: seq<SpokeCapability>
    const endpoint: string
    var status: string

    constructor (name: string, capabilities: seq<SpokeCapability>, endpoint: string)
      ensures this.name == name && this.capabilities == capabilities && this.endpoint == endpoint
      ensures status == Active
    {
      this.name := name;
      this.capabilities := capabilities;
      this.endpoint := endpoint;
      status := Active;
    }
  }

  /** No name occurs twice. */
  predicate Distinct(names: seq<string>)
  {
    forall i, j :: 0 <= i < j < |names| ==> names[i] != names[j]
  }

  /** A distinct sequence has as many elements as the set of its elements. */
  lemma {:induction false} DistinctCardinality(names: seq<string>)
    requires Distinct(names)
    ensures |set n | n in names| == |names|
  {
    if names != [] {
      var rest := names[1..];
      assert Distinct(rest) by {
        forall i, j | 0 <= i < j < |rest| ensures rest[i] != rest[j] {
          assert rest[i] == names[i + 1] && rest[j] == names[j + 1];
        }
      }
      DistinctCardinality(rest);
      assert names[0] !in rest by {
        forall i | 0 <= i < |rest| ensures rest[i] != names[0] {
          assert rest[i] == names[i + 1];
        }
      }
      assert (set n | n in names) == (set n | n in rest) + {names[0]} by {
        assert names == [names[0]] + rest;
      }
    }
  }

  /** The entries of m for the given names, in that order. */
  function Entries(m: map<string, SpokeMetadata>, names: seq<string>): (r: seq<SpokeMetadata>)
    requires forall n :: n in names ==> n in m
    ensures |r| == |names|
    ensures forall i :: 0 <= i < |r| ==> r[i] == m[names[i]]
  {
    if names == [] then [] else [m[names[0]]] + Entries(m, names[1..])
  }

  /**
    Listing a table by a distinct sequence of exactly its keys gives one
    entry per key; entries filed under their own names are told apart by name.
   */
  lemma {:induction false} EntriesOfTable(m: map<string, SpokeMetadata>, names: seq<string>)
    requires Distinct(names)
    requires forall n :: n in m <==> n in names
    requires forall n :: n in m ==> m[n].name == n
    ensures |Entries(m, names)| == |m|
    ensures forall n :: n in m ==> m[n] in Entries(m, names)
    ensures forall s {:trigger s in Entries(m, names)} :: s in Entries(m, names) ==> s in m.Values
    ensures forall i, j :: 0 <= i < j < |names| ==> Entries(m, names)[i].name != Entries(m, names)[j].name
  {
    EntriesCount(m, names);
    EntriesCover(m, names);
    EntriesNamed(m, names);
    EntriesInTable(m, names);
  }

  lemma {:induction false} EntriesInTable(m: map<string, SpokeMetadata>, names: seq<string>)
    requires forall n :: n in names ==> n in m
    ensures forall s {:trigger s in Entries(m, names)} :: s in Entries(m, names) ==> s in m.Values
  {
    var r := Entries(m, names);
    forall s | s in r ensures s in m.Values {
      var i :| 0 <= i < |r| && r[i] == s;
      assert names[i] in m && m[names[i]] == s;
    }
  }

  lemma {:induction false} EntriesNamed(m: map<string, SpokeMetadata>, names: seq<string>)
    requires forall n :: n in names ==> n in m
    requires forall n :: n in m ==> m[n].name == n
    ensures forall i :: 0 <= i < |names| ==> Entries(m, names)[i].name == names[i]
  {
    var r := Entries(m, names);
    forall i | 0 <= i < |names| ensures r[i].name == names[i] {
      assert r[i] == m[names[i]];
    }
  }

  lemma {:induction false} EntriesCount(m: map<string, SpokeMetadata>, names: seq<string>)
    requires Distinct(names)
    requires forall n :: n in m <==> n in names
    ensures |m| == |names|
  {
    DistinctCardinality(names);
    assert m.Keys == set n | n in names;
  }

  lemma {:induction false} EntriesCover(m: map<string, SpokeMetadata>, names: seq<string>)
    requires forall n :: n in m <==> n in names
    ensures forall n :: n in m ==> m[n] in Entries(m, names)
  {
    var r := Entries(m, names);
    forall n | n in m ensures m[n] in r {
      var i :| 0 <= i < |names| && names[i] == n;
      assert r[i] == m[n];
    }
  }

  /** r is made of some of the elements of s, kept in their relative order. */
  ghost predicate Subsequence(r: seq<SpokeMetadata>, s: seq<SpokeMetadata>)
    decreases |s|
  {
    if r == [] then true
    else if s == [] then false
    else if r[0] == s[0] then Subsequence(r[1..], s[1..])
    else Subsequence(r, s[1..])
  }

  /** A subsequence is no longer than the sequence it is taken from. */
  lemma {:induction false} SubsequenceLength(r: seq<SpokeMetadata>, s: seq<SpokeMetadata>)
    requires Subsequence(r, s)
    ensures |r| <= |s|
    decreases |s|
  {
    if r != [] {
      if r[0] == s[0] {
        SubsequenceLength(r[1..], s[1..]);
      } else {
        SubsequenceLength(r, s[1..]);
      }
    }
  }

  /** The spokes of ss that offer c and are active, in the order of ss. */
  function ActiveWithCapability(ss: seq<SpokeMetadata>, c: SpokeCapability): (r: seq<SpokeMetadata>)
    reads ss
    ensures forall s {:trigger s in r} :: s in r ==> s in ss && c in s.capabilities && s.status == Active
    ensures forall s {:trigger s in ss} :: s in ss && c in s.capabilities && s.status == Active ==> s in r
    ensures Subsequence(r, ss)
    ensures |r| <= |ss|
  {
    if ss == [] then []
    else
      assert ss == [ss[0]] + ss[1..];
      assert forall s {:trigger s in ss} :: s in ss ==> s == ss[0] || s in ss[1..];
      if c in ss[0].capabilities && ss[0].status == Active then
        [ss[0]] + ActiveWithCapability(ss[1..], c)
      else
        var rest := ActiveWithCapability(ss[1..], c);
        assert rest != [] ==> rest[0] in rest;
        rest
  }

  class AgentRegistry {
    var spokes: map<string, SpokeMetadata>
    /** The registered names, in the order they were first registered. */
    var order: seq<string>

    /**
      The table is keyed by the names in order, each once, and every entry
      is filed under its own name (so no two names share an entry).
     */
    ghost predicate Valid()
      reads this
    {
      && Distinct(order)
      && (forall n :: n in spokes <==> n in order)
      && (forall n :: n in spokes ==> spokes[n].name == n)
    }

    constructor ()
      ensures spokes == map[] && order == []
      ensures Valid()
    {
      spokes := map[];
      order := [];
    }

    /**
      Files a fresh, active entry under name, replacing any entry there; a
      new name goes to the end of the order, a known one keeps its place.
     */
    method RegisterSpoke(name: string, capabilities: seq<SpokeCapability>, endpoint: string)
      requires Valid()
      modifies this
      ensures Valid()
      ensures name in spokes && fresh(spokes[name])
      ensures spokes[name].name == name && spokes[name].capabilities == capabilities
      ensures spokes[name].endpoint == endpoint && spokes[name].status == Active
      ensures spokes.Keys == old(spokes.Keys) + {name}
      ensures forall n :: n in old(spokes) && n != name ==> spokes[n] == old(spokes[n])
      ensures order == if name in old(spokes) then old(order) else old(order) + [name]
    {
      var spoke := new SpokeMetadata(name, capabilities, endpoint);
      if name !in spokes {
        order := order + [name];
      }
      spokes := spokes[name := spoke];
    }

    /** Every registered spoke, once, in registration order. */
    function ListAllSpokes(): (r: seq<SpokeMetadata>)
      requires Valid()
      reads this
      ensures |r| == |spokes| == |order|
      ensures forall i :: 0 <= i < |r| ==> r[i] == spokes[order[i]]
      ensures forall n :: n in spokes ==> spokes[n] in r
      ensures forall s {:trigger s in r} :: s in r ==> s in spokes.Values
      ensures forall i, j :: 0 <= i < j < |r| ==> r[i].name != r[j].name
    {
      EntriesOfTable(spokes, order);
      Entries(spokes, order)
    }

    /** The active spokes that offer c, in registration order. */
    function GetSpokesForCapability(c: SpokeCapability): (r: seq<SpokeMetadata>)
      requires Valid()
      reads this, spokes.Values
      ensures forall s {:trigger s in r} :: s in r ==> s in spokes.Values && c in s.capabilities && s.status == Active
      ensures forall n :: n in spokes && c in spokes[n].capabilities && spokes[n].status == Active ==> spokes[n] in r
      ensures Subsequence(r, ListAllSpokes())
    {
      var all := ListAllSpokes();
      assert forall s {:trigger s in all} :: s in all ==> s in spokes.Values;
      ActiveWithCapability(all, c)
    }

    /** Sets the status of the spoke filed under name; an unknown name changes nothing. */
    method UpdateSpokeStatus(name: string, status: string)
      requires Valid()
      modifies if name in spokes then {spokes[name]} else {}
      ensures Valid()
      ensures spokes == old(spokes) && order == old(order)
      ensures name in spokes ==> spokes[name].status == status
      ensures forall n :: n in spokes && n != name ==> spokes[n].status == old(spokes[n].status)
    {
      if name in spokes {
        spokes[name].status := status;
      }
    }
  }

  /**
    A spoke that is registered, switched off and registered again is found
    again, with its new endpoint: re-registration resets the status.
   */
  method ReRegistration(c: SpokeCapability) returns (found: seq<SpokeMetadata>)
    ensures |found| == 1 && found[0].endpoint == "http://new" && found[0].status == Active
  {
    var registry := new AgentRegistry();
    registry.RegisterSpoke("aml-spoke", [c], "http://old");
    registry.UpdateSpokeStatus("aml-spoke", "inactive");
    assert registry.spokes.Keys == {"aml-spoke"};
    registry.RegisterSpoke("aml-spoke", [c], "http://new");
    var spoke := registry.spokes["aml-spoke"];
    assert spoke.endpoint == "http://new" && spoke.status == Active;
    found := registry.GetSpokesForCapability(c);
    OnlySpoke(registry, "aml-spoke", c, found);
  }

  /** A switched-off spoke is not found, while it stays listed. */
  method Deactivation(c: SpokeCapability, status: string) returns (found: seq<SpokeMetadata>, listed: seq<SpokeMetadata>)
    requires status != Active
    ensures found == [] && |listed| == 1 && listed[0].status == status
  {
    var registry := new AgentRegistry();
    registry.RegisterSpoke("fraud-spoke", [c], "http://spoke");
    registry.UpdateSpokeStatus("fraud-spoke", status);
    found := registry.GetSpokesForCapability(c);
    listed := registry.ListAllSpokes();
    SingleSpoke(registry, "fraud-spoke");
    assert registry.spokes.Values == {registry.spokes["fraud-spoke"]};
    NoneActive(registry, c);
  }

  /** Updating an unknown name changes no spoke. */
  method UnknownNameUpdate(c: SpokeCapability) returns (found: seq<SpokeMetadata>)
    ensures |found| == 1 && found[0].status == Active && found[0].name == "credit-spoke"
  {
    var registry := new AgentRegistry();
    registry.RegisterSpoke("credit-spoke", [c], "http://spoke");
    registry.UpdateSpokeStatus("other-spoke", "inactive");
    found := registry.GetSpokesForCapability(c);
    OnlySpoke(registry, "credit-spoke", c, found);
  }

  /** A registry holding one name lists just that name's spoke. */
  lemma {:induction false} SingleSpoke(registry: AgentRegistry, name: string)
    requires registry.Valid() && registry.spokes.Keys == {name}
    ensures registry.ListAllSpokes() == [registry.spokes[name]]
  {
    var listed := registry.ListAllSpokes();
    assert |registry.spokes| == |registry.spokes.Keys| == 1;
    assert registry.order[0] in registry.spokes;
  }

  /** When no spoke is active, a capability query finds nothing. */
  lemma {:induction false} NoneActive(registry: AgentRegistry, c: SpokeCapability)
    requires registry.Valid()
    requires forall s {:trigger s in registry.spokes.Values} :: s in registry.spokes.Values ==> s.status != Active
    ensures registry.GetSpokesForCapability(c) == []
  {
    NoneQualify(registry.ListAllSpokes(), c);
  }

  lemma {:induction false} NoneQualify(ss: seq<SpokeMetadata>, c: SpokeCapability)
    requires forall s {:trigger s in ss} :: s in ss ==> s.status != Active
    ensures ActiveWithCapability(ss, c) == []
  {
    if ss != [] {
      assert ss[0] in ss;
      assert forall s {:trigger s in ss[1..]} :: s in ss[1..] ==> s in ss;
      NoneQualify(ss[1..], c);
    }
  }

  /** With a single active spoke offering c, a query for c finds exactly that spoke. */
  lemma {:induction false} OnlySpoke(registry: AgentRegistry, name: string, c: SpokeCapability, found: seq<SpokeMetadata>)
    requires registry.Valid() && registry.spokes.Keys == {name}
    requires c in registry.spokes[name].capabilities && registry.spokes[name].status == Active
    requires found == registry.GetSpokesForCapability(c)
    ensures found == [registry.spokes[name]]
  {
    var listed := registry.ListAllSpokes();
    SubsequenceLength(found, listed);
    assert registry.spokes[name] in found;
    assert registry.spokes.Values == {registry.spokes[name]};
    assert found[0] in registry.spokes.Values;
  }
}
