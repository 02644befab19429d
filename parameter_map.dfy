/** `_parameterMap` of `pyqmc/jax/slater.py` and `pyqmc/jax/jastrowspin.py`:
    a dictionary of named coefficient arrays that keeps next to it the tuple
    the compiled evaluators read (the device copy). The tuple is rebuilt from a
    fixed list of keys whenever an entry is assigned, so it always agrees with
    the dictionary; deleting, clearing and bulk updates are refused. */
module ParameterMaps {
  import opened Wrappers

  /** A coefficient array of rank 1, 2 or 3 (`det_coeff`, `mo_coeff_*`, `bcoeff`, `acoeff`). */
  datatype Array = Vector(v: seq<real>) | Grid(m: seq<seq<real>>) | Cube(c: seq<seq<seq<real>>>)

  predicate Distinct(keys: seq<string>) {
    forall i, j :: 0 <= i < j < |keys| ==> keys[i] != keys[j]
  }

  /** The device tuple: the stored arrays at `fields`, in that order. */
  function Gather(parameters: map<string, Array>, fields: seq<string>): (r: seq<Array>)
    requires forall i :: 0 <= i < |fields| ==> fields[i] in parameters
    ensures |r| == |fields|
  {
    seq(|fields|, i requires 0 <= i < |fields| => parameters[fields[i]])
  }

  /** A dictionary with distinct insertion-ordered keys has as many entries as keys. */
  lemma {:induction false} DistinctKeysCount(order: seq<string>, keys: set<string>)
    requires Distinct(order)
    requires forall k :: k in keys <==> k in order
    ensures |keys| == |order|
    decreases |order|
  {
    if |order| > 0 {
      var last := order[|order| - 1];
      var rest := order[..|order| - 1];
      assert forall k :: k in rest <==> k in keys - {last} by {
        forall k ensures k in rest <==> k in keys - {last} {
          if k in rest {
            var i :| 0 <= i < |rest| && rest[i] == k;
            assert order[i] == k;
          }
          if k in order && k != last {
            var i :| 0 <= i < |order| && order[i] == k;
            assert i < |order| - 1;
            assert rest[i] == k;
          }
        }
      }
      DistinctKeysCount(rest, keys - {last});
    }
  }

  class ParameterMap {
    /** The keys the device tuple is built from, in tuple order. */
    const fields: seq<string>
    var parameters: map<string, Array>
    /** The dictionary's iteration order: keys in order of first insertion. */
    var order: seq<string>
    var jaxParameters: seq<Array>

    ghost predicate Valid()
      reads this
    {
      Distinct(order) &&
      (forall k :: k in parameters <==> k in order) &&
      (forall i :: 0 <= i < |fields| ==> fields[i] in parameters) &&
      jaxParameters == Gather(parameters, fields)
    }

    /** `__init__`: the dictionary holds the given tuple under `fields`. */
    constructor (jax: seq<Array>, fields: seq<string>)
      requires |jax| == |fields| && Distinct(fields)
      ensures Valid()
      ensures this.fields == fields && order == fields && jaxParameters == jax
      ensures forall i :: 0 <= i < |fields| ==> parameters[fields[i]] == jax[i]
      ensures forall k :: k in parameters <==> k in fields
    {
      this.fields := fields;
      parameters := map i | 0 <= i < |fields| :: fields[i] := jax[i];
      order := fields;
      jaxParameters := jax;
      new;
      forall i | 0 <= i < |fields|
        ensures parameters[fields[i]] == jax[i]
      {
        assert forall j :: 0 <= j < |fields| && fields[j] == fields[i] ==> j == i;
      }
    }

    /** `__setitem__`: store the array and rebuild the device tuple; a new key
        goes to the end of the iteration order. */
    method Set(key: string, item: Array)
      requires Valid()
      modifies this
      ensures Valid()
      ensures parameters == old(parameters)[key := item]
      ensures order == if key in old(parameters) then old(order) else old(order) + [key]
      ensures forall i :: 0 <= i < |fields| ==>
        jaxParameters[i] == if fields[i] == key then item else old(jaxParameters)[i]
    {
      if key !in parameters {
        order := order + [key];
      }
      parameters := parameters[key := item];
      jaxParameters := Gather(parameters, fields);
    }

    /** `__getitem__`: the stored array, or KeyError. */
    method Get(key: string) returns (r: Result<Array>)
      requires Valid()
      ensures r.Ok? <==> key in parameters
      ensures r.Ok? ==> r.value == parameters[key]
      ensures r.Err? ==> r.error == KeyError(key)
    {
      if key in parameters {
        r := Ok(parameters[key]);
      } else {
        r := Err(KeyError(key));
      }
    }

    /** `__len__`: the number of entries. */
    method Len() returns (n: nat)
      requires Valid()
      ensures n == |parameters|
    {
      n := |order|;
      DistinctKeysCount(order, parameters.Keys);
    }

    /** `has_key`. */
    method HasKey(k: string) returns (b: bool)
      requires Valid()
      ensures b <==> k in parameters
    {
      b := k in order;
    }

    /** `keys()`: every key once, in insertion order. */
    method Keys() returns (ks: seq<string>)
      requires Valid()
      ensures ks == order
      ensures Distinct(ks) && |ks| == |parameters|
      ensures forall k :: k in ks <==> k in parameters
    {
      ks := order;
      DistinctKeysCount(order, parameters.Keys);
    }

    /** `values()`: the arrays in the order of `keys()`. */
    method Values() returns (vs: seq<Array>)
      requires Valid()
      ensures |vs| == |order| == |parameters|
      ensures forall i :: 0 <= i < |vs| ==> order[i] in parameters && vs[i] == parameters[order[i]]
    {
      var ks, p := order, parameters;
      vs := seq(|ks|, i requires 0 <= i < |ks| && ks[i] in p => p[ks[i]]);
      DistinctKeysCount(order, parameters.Keys);
    }

    /** `copy()`: a plain dictionary with the same entries. */
    method Copy() returns (m: map<string, Array>)
      requires Valid()
      ensures m == parameters
    {
      m := parameters;
    }

    /** `__delitem__` always raises; nothing changes. */
    method Delete(key: string) returns (r: Result<()>)
      ensures r == Err(NotImplemented("Cannot delete parameters"))
    {
      r := Err(NotImplemented("Cannot delete parameters"));
    }

    /** `clear()` always raises; nothing changes. */
    method Clear() returns (r: Result<()>)
      ensures r == Err(NotImplemented("Cannot clear parameters"))
    {
      r := Err(NotImplemented("Cannot clear parameters"));
    }

    /** `update(...)` always raises; nothing changes. */
    method Update(entries: map<string, Array>) returns (r: Result<()>)
      ensures r == Err(NotImplemented("Cannot update parameters"))
    {
      r := Err(NotImplemented("Cannot update parameters"));
    }
  }

  /** The keys of the determinant wave function's map, in device-tuple order. */
  const SlaterFields: seq<string> := ["det_coeff", "mo_coeff_alpha", "mo_coeff_beta"]

  /** The keys of the Jastrow factor's map, in device-tuple order. */
  const JastrowFields: seq<string> := ["acoeff", "bcoeff"]

  /** The Jastrow map's constructor as written: it converts with `np.asarray`
      in a module that never imports numpy, so every construction raises
      NameError before the dictionary exists. */
  method NewJastrowMapAsWritten(jax: seq<Array>) returns (r: Result<ParameterMap>)
    requires |jax| == |JastrowFields|
    ensures r.Err? && r.error == NameError("np")
  {
    r := Err(NameError("np"));
  }

  /** The Jastrow map as intended (numpy imported): a valid map over
      `acoeff` and `bcoeff`. */
  method NewJastrowMap(jax: seq<Array>) returns (m: ParameterMap)
    requires |jax| == |JastrowFields|
    ensures fresh(m) && m.Valid() && m.fields == JastrowFields && m.jaxParameters == jax
    ensures m.parameters == map["acoeff" := jax[0], "bcoeff" := jax[1]]
  {
    m := new ParameterMap(jax, JastrowFields);
    assert m.parameters["acoeff"] == jax[0] && m.parameters["bcoeff"] == jax[1];
    assert m.parameters.Keys == {"acoeff", "bcoeff"};
  }
}
