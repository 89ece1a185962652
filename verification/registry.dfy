/** The pattern-module registry of src/core/pattern/registry.js.  The
    registry is a JavaScript `Map`, which keeps keys in first-insertion
    order and updates an existing key in place; it is a list of
    (id, module) pairs with distinct ids. */
module Registry {
  import opened Js

  /** A registered pattern module; `id` is absent when the record has none. */
  datatype PatternModule = PatternModule(id: Option<string>, name: Text, version: string, schemaId: string)

  type Registry = seq<(string, PatternModule)>

  const MissingId: string := "Pattern module missing id"

  /** Ids are distinct. */
  predicate Distinct(r: Registry) {
    forall i, j :: 0 <= i < j < |r| ==> r[i].0 != r[j].0
  }

  /** The ids, as a set. */
  function Ids(r: Registry): (s: set<string>)
    ensures forall id :: id in s <==> exists i :: 0 <= i < |r| && r[i].0 == id
  {
    set i | 0 <= i < |r| :: r[i].0
  }

  /** `new Map()`. */
  const Empty: Registry := []

  /** The position of `id`, or -1. */
  function IndexOf(r: Registry, id: string): (k: int)
    ensures -1 <= k < |r|
    ensures k == -1 <==> id !in Ids(r)
    ensures k >= 0 ==> r[k].0 == id
    decreases |r|
  {
    if |r| == 0 then -1
    else if r[|r| - 1].0 == id then |r| - 1
    else IndexOf(r[..|r| - 1], id)
  }

  /** `getModule(id)`: `undefined` is `None`. */
  function GetModule(r: Registry, id: string): (m: Option<PatternModule>)
    ensures m.None? <==> id !in Ids(r)
  {
    var k := IndexOf(r, id);
    if k == -1 then None else Some(r[k].1)
  }

  /** `getModules()`: the modules in registration order. */
  function GetModules(r: Registry): (ms: seq<PatternModule>)
    ensures |ms| == |r|
    ensures forall i :: 0 <= i < |r| ==> ms[i] == r[i].1
  {
    seq(|r|, i requires 0 <= i < |r| => r[i].1)
  }

  /** `registerModule(module)`: a missing or empty id throws and registers
      nothing; otherwise `modules.set(module.id, module)`. */
  function Register(r: Registry, pm: Option<PatternModule>): (result: Result<Registry>)
    ensures result.Throws? <==> pm.None? || pm.value.id.None? || pm.value.id.value == ""
    ensures result.Throws? ==> result.message == MissingId
    ensures result.Ok? ==>
      var id := pm.value.id.value;
      && (id in Ids(r) ==> result.value == r[IndexOf(r, id) := (id, pm.value)])
      && (id !in Ids(r) ==> result.value == r + [(id, pm.value)])
  {
    if pm.None? || pm.value.id.None? || pm.value.id.value == "" then Throws(MissingId)
    else
      var id := pm.value.id.value;
      var k := IndexOf(r, id);
      if k >= 0 then Ok(r[k := (id, pm.value)]) else Ok(r + [(id, pm.value)])
  }

  /** After registering, the id names that module, every other id keeps
      its module, ids stay distinct, the id set gains exactly the new id,
      and the module count grows only for a new id. */
  lemma RegisterThenGet(r: Registry, m: PatternModule, other: string)
    requires Distinct(r)
    requires Register(r, Some(m)).Ok?
    ensures var r2 := Register(r, Some(m)).value;
      && GetModule(r2, m.id.value) == Some(m)
      && (other != m.id.value ==> GetModule(r2, other) == GetModule(r, other))
      && Distinct(r2)
      && Ids(r2) == Ids(r) + {m.id.value}
      && |GetModules(r2)| == |GetModules(r)| + (if m.id.value in Ids(r) then 0 else 1)
  {
    var id := m.id.value;
    var r2 := Register(r, Some(m)).value;
    var k := IndexOf(r, id);
    RegisterKeepsDistinct(r, m);
    if k >= 0 {
      IndexUnique(r2, k);
      if other != id {
        var j := IndexOf(r, other);
        if j >= 0 {
          assert r2[j] == r[j];
          IndexUnique(r2, j);
        } else {
          assert other !in Ids(r2);
        }
      }
    } else {
      IndexUnique(r2, |r|);
      if other != id {
        var j := IndexOf(r, other);
        if j >= 0 {
          assert r2[j] == r[j];
          IndexUnique(r2, j);
        }
      }
    }
  }

  /** Registering keeps ids distinct and adds exactly the module's id. */
  lemma RegisterKeepsDistinct(r: Registry, m: PatternModule)
    requires Distinct(r)
    requires Register(r, Some(m)).Ok?
    ensures Distinct(Register(r, Some(m)).value)
    ensures Ids(Register(r, Some(m)).value) == Ids(r) + {m.id.value}
  {
    var id := m.id.value;
    var r2 := Register(r, Some(m)).value;
    var k := IndexOf(r, id);
    if k >= 0 {
      forall i, j | 0 <= i < j < |r2| ensures r2[i].0 != r2[j].0 {
        if i == k || j == k { assert r[k].0 == id; }
      }
      forall x ensures x in Ids(r2) <==> x in Ids(r) + {id} {
        if x in Ids(r) {
          var i :| 0 <= i < |r| && r[i].0 == x;
          assert r2[i].0 == x;
        }
        if x in Ids(r2) {
          var i :| 0 <= i < |r2| && r2[i].0 == x;
          assert i == k || r2[i] == r[i];
        }
      }
    } else {
      forall i, j | 0 <= i < j < |r2| ensures r2[i].0 != r2[j].0 {
        if j == |r| { assert r[i].0 in Ids(r); }
      }
      IdsSnoc(r, (id, m));
    }
  }

  /** With distinct ids, the id at position `k` is found at `k`. */
  lemma IndexUnique(r: Registry, k: nat)
    requires Distinct(r) && k < |r|
    ensures IndexOf(r, r[k].0) == k
  {
    var j := IndexOf(r, r[k].0);
    assert j >= 0 && r[j].0 == r[k].0;
  }

  /** Registering the same module twice is registering it once. */
  lemma RegisterIdempotent(r: Registry, m: PatternModule)
    requires Distinct(r)
    requires Register(r, Some(m)).Ok?
    ensures Register(Register(r, Some(m)).value, Some(m)) == Register(r, Some(m))
  {
    var id := m.id.value;
    var r2 := Register(r, Some(m)).value;
    RegisterThenGet(r, m, id);
    var k := IndexOf(r2, id);
    assert r2[k] == (id, m);
    assert r2[k := (id, m)] == r2;
  }

  /** The ids of a list of modules that all have one. */
  function IdsOf(ms: seq<PatternModule>): (s: set<string>)
    requires forall i :: 0 <= i < |ms| ==> ms[i].id.Some?
    ensures forall id :: id in s <==> exists i :: 0 <= i < |ms| && ms[i].id.value == id
  {
    set i | 0 <= i < |ms| :: ms[i].id.value
  }

  lemma IdsOfSnoc(ms: seq<PatternModule>, m: PatternModule)
    requires forall i :: 0 <= i < |ms| ==> ms[i].id.Some?
    requires m.id.Some?
    ensures IdsOf(ms + [m]) == IdsOf(ms) + {m.id.value}
  {
    var all := ms + [m];
    forall x ensures x in IdsOf(all) <==> x in IdsOf(ms) + {m.id.value} {
      if x in IdsOf(all) {
        var i :| 0 <= i < |all| && all[i].id.value == x;
        if i < |ms| { assert ms[i] == all[i]; }
      }
      if x in IdsOf(ms) {
        var i :| 0 <= i < |ms| && ms[i].id.value == x;
        assert all[i] == ms[i];
      }
      if x == m.id.value { assert all[|ms|] == m; }
    }
  }

  /** Registering modules with non-empty ids one after another succeeds,
      and the registered ids are exactly theirs. */
  lemma {:induction false} OneModulePerId(ms: seq<PatternModule>)
    requires forall i :: 0 <= i < |ms| ==> ms[i].id.Some? && ms[i].id.value != ""
    ensures RegisterAll(Empty, ms).Ok?
    ensures Distinct(RegisterAll(Empty, ms).value)
    ensures Ids(RegisterAll(Empty, ms).value) == IdsOf(ms)
    decreases |ms|
  {
    if |ms| > 0 {
      var init := ms[..|ms| - 1];
      var m := ms[|ms| - 1];
      assert forall i :: 0 <= i < |init| ==> init[i] == ms[i];
      OneModulePerId(init);
      var r := RegisterAll(Empty, init).value;
      assert RegisterAll(Empty, ms) == Register(r, Some(m));
      RegisterKeepsDistinct(r, m);
      IdsOfSnoc(init, m);
      assert init + [m] == ms;
    }
  }

  /** `getModules()` then holds one module per distinct id. */
  lemma ModuleCount(ms: seq<PatternModule>)
    requires forall i :: 0 <= i < |ms| ==> ms[i].id.Some? && ms[i].id.value != ""
    ensures RegisterAll(Empty, ms).Ok?
    ensures |GetModules(RegisterAll(Empty, ms).value)| == |IdsOf(ms)|
  {
    OneModulePerId(ms);
    DistinctSize(RegisterAll(Empty, ms).value);
  }

  /** Registering a list of modules in order; the first failure is the
      result. */
  function RegisterAll(r: Registry, ms: seq<PatternModule>): Result<Registry>
    decreases |ms|
  {
    if |ms| == 0 then Ok(r)
    else match RegisterAll(r, ms[..|ms| - 1])
      case Throws(e) => Throws(e)
      case Ok(r2) => Register(r2, Some(ms[|ms| - 1]))
  }

  /** With distinct ids there are as many entries as ids. */
  lemma {:induction false} DistinctSize(r: Registry)
    requires Distinct(r)
    ensures |Ids(r)| == |r|
    decreases |r|
  {
    if |r| > 0 {
      var init, last := r[..|r| - 1], r[|r| - 1];
      assert r == init + [last];
      assert forall i :: 0 <= i < |init| ==> init[i] == r[i];
      DistinctSize(init);
      IdsSnoc(init, last);
      assert last.0 !in Ids(init);
    }
  }

  /** Appending an entry adds its id. */
  lemma IdsSnoc(r: Registry, e: (string, PatternModule))
    ensures Ids(r + [e]) == Ids(r) + {e.0}
  {
    var all := r + [e];
    forall x ensures x in Ids(all) <==> x in Ids(r) + {e.0} {
      if x in Ids(r) {
        var i :| 0 <= i < |r| && r[i].0 == x;
        assert all[i] == r[i];
      }
      if x in Ids(all) && x != e.0 {
        var i :| 0 <= i < |all| && all[i].0 == x;
        assert r[i] == all[i];
      }
      if x == e.0 { assert all[|r|] == e; }
    }
  }
}
