/** The two-keyed transformer registry: BY_ID and BY_NAME, with BY_ID's insertion order. */
module Registry {
  import opened Wrappers
  import opened Failures
  import opened Sequences
  import opened Maps
  import opened Transformers

  /** The registry invariant over the three pieces of state:
      - `order` lists the ids of `byId`, each once, in the order they were inserted;
      - every instance is stored under its own id in `byId` and under its own name in `byName`;
      - both maps hold the same set of instances. */
  ghost predicate Consistent(byId: map<string, Transformer>, byName: map<string, Transformer>, order: seq<string>)
  {
    && (forall i, j :: 0 <= i < j < |order| ==> order[i] != order[j])
    && (forall i :: 0 <= i < |order| ==> order[i] in byId)
    && (forall k :: k in byId ==> k in order)
    && (forall k :: k in byId ==> byId[k].id == k && byId[k].Legal())
    && (forall n :: n in byName ==> byName[n].name == n)
    && byId.Values == byName.Values
  }

  /** The instances of `byId` in the order of `order` (the iteration order of BY_ID.values()). */
  function Instances(byId: map<string, Transformer>, order: seq<string>): (r: seq<Transformer>)
    requires forall i :: 0 <= i < |order| ==> order[i] in byId
    ensures |r| == |order|
    ensures forall i :: 0 <= i < |order| ==> r[i] == byId[order[i]]
    decreases |order|
  {
    if order == [] then []
    else Instances(byId, order[..|order| - 1]) + [byId[order[|order| - 1]]]
  }

  /** The two maps always have the same size. */
  lemma SameSize(byId: map<string, Transformer>, byName: map<string, Transformer>, order: seq<string>)
    requires Consistent(byId, byName, order)
    ensures |byId| == |byName|
  {
    KeyedMapSize(byId, (t: Transformer) => t.id);
    KeyedMapSize(byName, (t: Transformer) => t.name);
  }

  /** The enumeration holds exactly the registered instances, each once, each at the position of its id. */
  lemma InstancesAreRegistered(byId: map<string, Transformer>, byName: map<string, Transformer>, order: seq<string>)
    requires Consistent(byId, byName, order)
    ensures forall i :: 0 <= i < |order| ==> Instances(byId, order)[i].id == order[i]
    ensures forall t :: t in Instances(byId, order) <==> t in byId.Values
    ensures Distinct(Instances(byId, order))
  {
  }

  /** For registered instances, identity coincides with equality of ids and with equality of names. */
  lemma RegisteredIdentity(byId: map<string, Transformer>, byName: map<string, Transformer>,
                                            order: seq<string>, a: Transformer, b: Transformer)
    requires Consistent(byId, byName, order)
    requires a in byId.Values && b in byId.Values
    ensures a.Equals(b) <==> a.id == b.id
    ensures a.Equals(b) <==> a.name == b.name
  {
  }

  /** Inserting an instance whose id and name are both new keeps the registry consistent. */
  lemma {:induction false} InsertKeepsConsistent(byId: map<string, Transformer>, byName: map<string, Transformer>,
                                               order: seq<string>, t: Transformer)
    requires Consistent(byId, byName, order)
    requires t.id !in byId && t.name !in byName
    requires t.Legal()
    ensures Consistent(byId[t.id := t], byName[t.name := t], order + [t.id])
  {
    var byId', order' := byId[t.id := t], order + [t.id];
    InsertNewKeyValues(byId, t.id, t);
    InsertNewKeyValues(byName, t.name, t);
    forall k | k in byId' ensures k in order' {
      if k != t.id { assert k in order; }
    }
  }

  /** Inserting an instance under a new id appends it to the enumeration and keeps the others in place. */
  lemma InsertAppends(byId: map<string, Transformer>, order: seq<string>, t: Transformer)
    requires forall i :: 0 <= i < |order| ==> order[i] in byId
    requires t.id !in byId
    ensures Instances(byId[t.id := t], order + [t.id]) == Instances(byId, order) + [t]
  {
  }

  class Registry {
    var byId: map<string, Transformer>
    var byName: map<string, Transformer>
    var order: seq<string>

    ghost predicate Valid()
      reads this
    {
      Consistent(byId, byName, order)
    }

    constructor ()
      ensures Valid()
      ensures byId == map[] && byName == map[] && order == []
    {
      byId, byName, order := map[], map[], [];
    }

    /** getById: the instance registered under `id`, or null. */
    function GetById(id: string): (r: Option<Transformer>)
      reads this
      requires Valid()
      ensures r.Some? <==> id in byId
      ensures r.Some? ==> r.value in byId.Values && r.value in byName.Values && r.value.id == id
    {
      if id in byId then Some(byId[id]) else None
    }

    /** getByName: the instance registered under `name`, or null. */
    function GetByName(name: string): (r: Option<Transformer>)
      reads this
      requires Valid()
      ensures r.Some? <==> name in byName
      ensures r.Some? ==> r.value in byName.Values && r.value in byId.Values && r.value.name == name
    {
      if name in byName then Some(byName[name]) else None
    }

    /** BY_ID.values() in insertion order. */
    function AllInstances(): (r: seq<Transformer>)
      reads this
      requires Valid()
      ensures |r| == |order| == |byId|
      ensures forall i :: 0 <= i < |r| ==> r[i].id == order[i]
      ensures forall i :: 0 <= i < |r| ==> r[i] in byId.Values
      ensures forall k :: k in byId ==> byId[k] in r
      ensures Distinct(r)
    {
      InstancesAreRegistered(byId, byName, order);
      InstancesSize(byId, byName, order);
      Instances(byId, order)
    }

    /** getAllTransformers(filter): the registered instances that satisfy `filter`, each once,
        in the order their ids were registered. */
    function GetAllTransformers(filter: Transformer -> bool): (r: seq<Transformer>)
      reads this
      requires Valid()
      ensures forall i :: 0 <= i < |r| ==> r[i] in byId.Values && filter(r[i])
      ensures forall k :: k in byId && filter(byId[k]) ==> byId[k] in r
      ensures IsSubsequence(r, AllInstances())
      ensures Distinct(r)
    {
      var all := AllInstances();
      FilterIsSubsequence(all, filter);
      FilterDistinct(all, filter);
      Filter(all, filter)
    }

    /** getAllTransformers(): every registered instance, in registration order. */
    function GetAllTransformersUnfiltered(): (r: seq<Transformer>)
      reads this
      requires Valid()
      ensures r == AllInstances()
    {
      FilterAcceptingAll(AllInstances(), (t: Transformer) => true);
      GetAllTransformers((t: Transformer) => true)
    }

    /** register: refuses a taken id, then a taken name, without touching either map;
        otherwise inserts the instance into both maps and returns it. */
    method Register(t: Transformer) returns (r: Result<Transformer, Error>)
      requires Valid() && t.Legal()
      modifies this
      ensures Valid()
      ensures t.id in old(byId) ==> r == Failure(DuplicateId(t.id)) && unchanged(this)
      ensures t.id !in old(byId) && t.name in old(byName) ==> r == Failure(DuplicateName(t.name)) && unchanged(this)
      ensures t.id !in old(byId) && t.name !in old(byName) ==>
                && r == Success(t)
                && byId == old(byId)[t.id := t]
                && byName == old(byName)[t.name := t]
                && order == old(order) + [t.id]
                && AllInstances() == old(AllInstances()) + [t]
                && GetById(t.id) == Some(t) && GetByName(t.name) == Some(t)
      ensures r.Success? <==> t.id !in old(byId) && t.name !in old(byName)
      ensures |byId| == |byName|
    {
      if t.id in byId {
        SameSize(byId, byName, order);
        return Failure(DuplicateId(t.id));
      }
      if t.name in byName {
        SameSize(byId, byName, order);
        return Failure(DuplicateName(t.name));
      }
      InsertKeepsConsistent(byId, byName, order, t);
      InsertAppends(byId, order, t);
      byId := byId[t.id := t];
      byName := byName[t.name := t];
      order := order + [t.id];
      SameSize(byId, byName, order);
      r := Success(t);
    }

    /** A bootstrap that registers the given instances one after another and stops at the first
        refusal, as a static initializer does when `register` throws. */
    method RegisterAll(ts: seq<Transformer>) returns (registered: nat, outcome: Outcome<Error>)
      requires Valid()
      requires forall i :: 0 <= i < |ts| ==> ts[i].Legal()
      modifies this
      ensures Valid()
      ensures registered <= |ts|
      ensures AllInstances() == old(AllInstances()) + ts[..registered]
      ensures outcome.Pass? <==> registered == |ts|
      ensures outcome.Fail? ==>
                outcome.error == (if ts[registered].id in byId then DuplicateId(ts[registered].id)
                                  else DuplicateName(ts[registered].name))
      ensures outcome.Fail? ==> ts[registered].id in byId || ts[registered].name in byName
    {
      ghost var initial := AllInstances();
      registered := 0;
      while registered < |ts|
        invariant Valid()
        invariant registered <= |ts|
        invariant AllInstances() == initial + ts[..registered]
      {
        var t := ts[registered];
        var r := Register(t);
        if r.Failure? {
          return registered, Fail(r.error);
        }
        PrefixStep(initial, ts, registered);
        registered := registered + 1;
      }
      outcome := Pass;
    }
  }

  /** The enumeration has one entry per id. */
  lemma InstancesSize(byId: map<string, Transformer>, byName: map<string, Transformer>, order: seq<string>)
    requires Consistent(byId, byName, order)
    ensures |Instances(byId, order)| == |byId|
  {
    assert byId.Keys == set i | 0 <= i < |order| :: order[i];
    DistinctIndexSetSize(order);
  }

  /** A sequence without repetitions has as many distinct elements as positions. */
  lemma {:induction false} DistinctIndexSetSize(s: seq<string>)
    requires forall i, j :: 0 <= i < j < |s| ==> s[i] != s[j]
    ensures |set i | 0 <= i < |s| :: s[i]| == |s|
    decreases |s|
  {
    if s != [] {
      var n := |s| - 1;
      DistinctIndexSetSize(s[..n]);
      var prefix := set i | 0 <= i < n :: s[..n][i];
      assert (set i | 0 <= i < |s| :: s[i]) == prefix + {s[n]};
      assert s[n] !in prefix;
    }
  }

  /** A client: a second instance with a taken id, then one with a taken name, is refused
      and the first registration stays in place. */
  method DuplicateScenario()
  {
    var registry := new Registry();
    var first := new Transformer("krakatau", "Krakatau", []);
    var sameId := new Transformer("krakatau", "Krakatau Copy", []);
    var sameName := new Transformer("smali", "Krakatau", []);

    var r := registry.Register(first);
    assert r == Success(first);
    r := registry.Register(sameId);
    assert r == Failure(DuplicateId("krakatau"));
    r := registry.Register(sameName);
    assert r == Failure(DuplicateName("Krakatau"));
    assert registry.GetById("krakatau") == Some(first);
    assert registry.GetById("smali").None?;
  }

  /** A client: two registrations are enumerated in registration order and found by id and by name. */
  method EnumerationScenario()
  {
    var registry := new Registry();
    var first := new Transformer("krakatau", "Krakatau", []);
    var second := new Transformer("smali", "Smali", [Setting("baksmali")]);

    var r := registry.Register(first);
    assert registry.AllInstances() == [first];
    r := registry.Register(second);
    assert r == Success(second);
    assert registry.AllInstances() == [first, second];
    assert registry.GetByName("Smali") == Some(second);
  }
}
