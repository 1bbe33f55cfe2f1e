/** The carrier registry: carriers by name, in the order their names were
    first registered, a later registration replacing an earlier one. */
module Carriers {
  import opened Wrappers
  import opened UpsCarrier

  /** No name occurs twice. */
  predicate Distinct(names: seq<string>) {
    forall i, j :: 0 <= i < j < |names| ==> names[i] != names[j]
  }

  /** The key order of a JavaScript `Map` after setting `name`: a new key
      goes last, an existing key keeps its place. */
  function Enrol(order: seq<string>, name: string): (o: seq<string>)
    ensures Distinct(order) ==> Distinct(o)
    ensures forall n :: n in o <==> n in order || n == name
    ensures |order| <= |o| && o[..|order|] == order
    ensures name in order ==> o == order
    ensures name !in order ==> |o| == |order| + 1 && o[|order|] == name
  {
    if name in order then order else order + [name]
  }

  /** The message of a failed lookup. */
  function NotFound(name: string): string {
    "Carrier " + name + " not found"
  }

  class CarrierRegistry {
    var carriers: map<string, UpsCarrier>
    var order: seq<string>

    /** The keys of `carriers`, each once, in insertion order. */
    ghost predicate Valid()
      reads this
    {
      && Distinct(order)
      && forall n :: n in carriers <==> n in order
    }

    constructor()
      ensures Valid() && carriers == map[] && order == []
    {
      carriers := map[];
      order := [];
    }

    /** Registers `carrier` under its current name, replacing any carrier
        already registered under that name. */
    method Register(carrier: UpsCarrier)
      requires Valid()
      modifies this
      ensures Valid()
      ensures carriers == old(carriers)[carrier.name := carrier]
      ensures order == Enrol(old(order), carrier.name)
    {
      carriers := carriers[carrier.name := carrier];
      order := Enrol(order, carrier.name);
    }

    /** The carrier registered under `name`, or an error naming it. */
    method Get(name: string) returns (r: Result<UpsCarrier, string>)
      ensures r.Ok? <==> name in carriers
      ensures r.Ok? ==> r.value == carriers[name]
      ensures r.Err? ==> r.error == NotFound(name)
    {
      if name !in carriers {
        return Err(NotFound(name));
      }
      r := Ok(carriers[name]);
    }

    /** Every registered carrier, once per name, in insertion order. */
    function GetAll(): (cs: seq<UpsCarrier>)
      requires Valid()
      reads this
      ensures |cs| == |order|
      ensures forall i :: 0 <= i < |order| ==> cs[i] == carriers[order[i]]
      ensures forall n :: n in carriers ==> carriers[n] in cs
    {
      var cs := ValuesOf(carriers, order);
      assert forall n :: n in carriers ==> carriers[n] in cs by {
        forall n | n in carriers
          ensures carriers[n] in cs
        {
          var i :| 0 <= i < |order| && order[i] == n;
          assert cs[i] == carriers[n];
        }
      }
      cs
    }
  }

  /** The values of `m` at `keys`, in that order. */
  function ValuesOf(m: map<string, UpsCarrier>, keys: seq<string>): (vs: seq<UpsCarrier>)
    requires forall k :: k in keys ==> k in m
    ensures |vs| == |keys|
    ensures forall i :: 0 <= i < |keys| ==> vs[i] == m[keys[i]]
  {
    if keys == [] then [] else [m[keys[0]]] + ValuesOf(m, keys[1..])
  }
}
