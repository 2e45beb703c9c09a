/** The environment chain of src/env.ts: a frame of bindings plus an
    optional parent frame. The source mutates a frame in place; here
    `Define` returns the updated environment. */
module Envs {
  import opened Options
  import opened SExprs

  datatype Env = Env(frame: map<string, SExpr>, parent: Option<Env>)

  /** The frame `new Map(initial)` builds: every name of `initial` is bound,
      and a name listed twice keeps its later value. */
  function FromEntries(initial: seq<(string, SExpr)>): (m: map<string, SExpr>)
    ensures |m| <= |initial|
    ensures |initial| > 0 ==> initial[|initial| - 1].0 in m && m[initial[|initial| - 1].0] == initial[|initial| - 1].1
    decreases |initial|
  {
    if |initial| == 0 then map[]
    else
      var last := initial[|initial| - 1];
      var m := FromEntries(initial[..|initial| - 1]);
      m[last.0 := last.1]
  }

  /** The frame binds exactly the names listed in `initial`. */
  lemma {:induction false} FromEntriesKeys(initial: seq<(string, SExpr)>)
    ensures forall name :: name in FromEntries(initial) <==>
              exists i :: 0 <= i < |initial| && initial[i].0 == name
    decreases |initial|
  {
    if |initial| > 0 {
      var n := |initial| - 1;
      var init := initial[..n];
      FromEntriesKeys(init);
      forall name
        ensures name in FromEntries(initial) <==>
                  exists i :: 0 <= i < |initial| && initial[i].0 == name
      {
        if name in FromEntries(init) {
          var i :| 0 <= i < |init| && init[i].0 == name;
          assert initial[i].0 == name;
        }
        if exists i :: 0 <= i < |initial| && initial[i].0 == name {
          var i :| 0 <= i < |initial| && initial[i].0 == name;
          if i < n {
            assert init[i].0 == name;
          }
        }
      }
    }
  }

  /** A name listed more than once keeps the value of its last entry. */
  lemma {:induction false} FromEntriesLastWins(initial: seq<(string, SExpr)>, i: nat)
    requires i < |initial| && IsLastEntry(initial, i)
    ensures initial[i].0 in FromEntries(initial)
    ensures FromEntries(initial)[initial[i].0] == initial[i].1
    decreases |initial|
  {
    var n := |initial| - 1;
    if i < n {
      var init := initial[..n];
      assert initial[n].0 != initial[i].0;
      assert init[i] == initial[i];
      assert IsLastEntry(init, i) by {
        forall j | i < j < |init|
          ensures init[j].0 != init[i].0
        {
          assert init[j] == initial[j];
        }
      }
      FromEntriesLastWins(init, i);
    }
  }

  /** No entry after position `i` binds the same name. */
  ghost predicate IsLastEntry(initial: seq<(string, SExpr)>, i: nat)
    requires i < |initial|
  {
    forall j :: i < j < |initial| ==> initial[j].0 != initial[i].0
  }

  /** The constructor: a fresh frame holding `initial`, under `parent`. */
  function NewEnv(initial: seq<(string, SExpr)>, parent: Option<Env>): (r: Env)
    ensures r.parent == parent
    ensures r.frame.Keys == set i | 0 <= i < |initial| :: initial[i].0
  {
    FromEntriesKeys(initial);
    Env(FromEntries(initial), parent)
  }

  /** `define`: binds `name` in the local frame, replacing an earlier local
      binding; the parent is left as it is. */
  function Define(env: Env, name: string, value: SExpr): (r: Env)
    ensures r.parent == env.parent
    ensures r.frame.Keys == env.frame.Keys + {name}
  {
    Env(env.frame[name := value], env.parent)
  }

  /** `lookup`: the local binding if there is one, else the parent's answer;
      `None` once the root frame misses too. */
  function Lookup(env: Env, name: string): (r: Option<SExpr>)
    ensures r.Some? ==> BoundIn(Chain(env), name, r.value)
    decreases env
  {
    if name in env.frame then
      assert Chain(env)[0] == env.frame;
      Some(env.frame[name])
    else
      match env.parent
      case None => None
      case Some(p) =>
        var r := Lookup(p, name);
        if r.Some? then
          var k :| 0 <= k < |Chain(p)| && name in Chain(p)[k] && Chain(p)[k][name] == r.value;
          assert Chain(env)[k + 1] == Chain(p)[k];
          r
        else r
  }

  /** Some frame of `frames` binds `name` to `v`. */
  ghost predicate BoundIn(frames: seq<map<string, SExpr>>, name: string, v: SExpr)
  {
    exists k :: 0 <= k < |frames| && name in frames[k] && frames[k][name] == v
  }

  /** The frames of the chain, from the local one to the root. */
  function Chain(env: Env): (frames: seq<map<string, SExpr>>)
    ensures |frames| >= 1 && frames[0] == env.frame
    decreases env
  {
    match env.parent
    case None => [env.frame]
    case Some(p) => [env.frame] + Chain(p)
  }

  /** No frame of `frames` binds `name`. */
  ghost predicate Unbound(frames: seq<map<string, SExpr>>, name: string)
  {
    forall i :: 0 <= i < |frames| ==> name !in frames[i]
  }

  /** Frame `k` is the first of `frames` that binds `name`. */
  ghost predicate FirstBinding(frames: seq<map<string, SExpr>>, name: string, k: int)
  {
    0 <= k < |frames| && name in frames[k] && forall j :: 0 <= j < k ==> name !in frames[j]
  }

  /** `lookup` answers `None` exactly when no frame of the chain binds the name. */
  lemma {:induction false} LookupAbsentIff(env: Env, name: string)
    ensures Lookup(env, name).None? <==> Unbound(Chain(env), name)
    decreases env
  {
    var c := Chain(env);
    if name !in env.frame && env.parent.Some? {
      var p := env.parent.value;
      LookupAbsentIff(p, name);
      assert c == [env.frame] + Chain(p);
      if Unbound(Chain(p), name) {
        forall i | 0 <= i < |c|
          ensures name !in c[i]
        {
          if i > 0 { assert c[i] == Chain(p)[i - 1]; }
        }
      }
      if Unbound(c, name) {
        forall i | 0 <= i < |Chain(p)|
          ensures name !in Chain(p)[i]
        {
          assert Chain(p)[i] == c[i + 1];
        }
      }
    } else if name in env.frame {
      assert name in c[0];
    }
  }

  /** A bound name is answered from the first frame of the chain binding it. */
  lemma {:induction false} LookupFirstFrame(env: Env, name: string)
    requires Lookup(env, name).Some?
    ensures exists k :: FirstBinding(Chain(env), name, k) && Chain(env)[k][name] == Lookup(env, name).value
    decreases env
  {
    var c := Chain(env);
    if name in env.frame {
      assert FirstBinding(c, name, 0);
    } else {
      var p := env.parent.value;
      LookupFirstFrame(p, name);
      assert c == [env.frame] + Chain(p);
      var k :| FirstBinding(Chain(p), name, k) && Chain(p)[k][name] == Lookup(p, name).value;
      assert c[k + 1] == Chain(p)[k];
      forall j | 0 <= j < k + 1
        ensures name !in c[j]
      {
        if j > 0 { assert c[j] == Chain(p)[j - 1]; }
      }
      assert FirstBinding(c, name, k + 1);
    }
  }

  /** After `define(n, v)`, looking `n` up gives `v`. */
  lemma {:induction false} DefineThenLookup(env: Env, name: string, value: SExpr)
    ensures Lookup(Define(env, name, value), name) == Some(value)
  {
  }

  /** `define` of one name leaves the lookup of every other name as it was. */
  lemma {:induction false} DefineOtherNames(env: Env, name: string, value: SExpr, other: string)
    requires other != name
    ensures Lookup(Define(env, name, value), other) == Lookup(env, other)
  {
  }

  /** A second `define` of the same name replaces the first. */
  lemma {:induction false} DefineOverwrites(env: Env, name: string, v1: SExpr, v2: SExpr)
    ensures Define(Define(env, name, v1), name, v2) == Define(env, name, v2)
    ensures Lookup(Define(Define(env, name, v1), name, v2), name) == Some(v2)
  {
  }

  /** `define` never reaches into the parent: every lookup through the
      parent answers as before. */
  lemma {:induction false} DefineKeepsParent(env: Env, name: string, value: SExpr, other: string)
    requires env.parent.Some?
    ensures Define(env, name, value).parent == env.parent
    ensures Lookup(Define(env, name, value).parent.value, other) == Lookup(env.parent.value, other)
  {
  }

  /** A local binding hides the parent's binding of the same name. */
  lemma {:induction false} LocalShadowsParent(frame: map<string, SExpr>, parent: Env, name: string)
    requires name in frame
    ensures Lookup(Env(frame, Some(parent)), name) == Some(frame[name])
  {
  }

  /** A name missing locally is answered by the parent chain. */
  lemma {:induction false} MissFallsToParent(frame: map<string, SExpr>, parent: Env, name: string)
    requires name !in frame
    ensures Lookup(Env(frame, Some(parent)), name) == Lookup(parent, name)
  {
  }

  /** Every binding handed to the constructor is visible to `lookup`, with
      the value of the name's last entry. */
  lemma {:induction false} ConstructorBindingsVisible(initial: seq<(string, SExpr)>, parent: Option<Env>, i: nat)
    requires i < |initial| && IsLastEntry(initial, i)
    ensures Lookup(NewEnv(initial, parent), initial[i].0) == Some(initial[i].1)
  {
    FromEntriesLastWins(initial, i);
  }
}
