/**
 * Dependency resolution of the setup driver (`Setup._get_deps` in
 * infra/setup.py and `Setup.get_deps` in setup.py, which are the same code).
 *
 * Objects (packages, targets, instances) are nodes of type `T`; `g(x)` is the
 * list that `x.dependencies()` yields.  Python's `==` and `hash` on these
 * objects are their identity strings together with their class, which a
 * Dafny datatype's equality gives directly.  The set `U` is a finite set of
 * nodes closed under `g`: every object the walk can ever meet.  It only
 * bounds the recursion and is not part of the source.
 *
 * `add_dep(dep, visited)` fails when `dep` is already on the current path,
 * otherwise walks every nested dependency with its own copy of the path and
 * then appends `dep` unless it is already listed.
 */
module Deps {

  import opened Wrappers
  import Strs

  ghost predicate Closed<T(!new)>(g: T -> seq<T>, U: set<T>)
  {
    forall x, i :: x in U && 0 <= i < |g(x)| ==> g(x)[i] in U
  }

  ghost predicate AllIn<T(!new)>(s: seq<T>, U: set<T>)
  {
    forall i :: 0 <= i < |s| ==> s[i] in U
  }

  lemma DiffShrinks<T(!new)>(U: set<T>, visited: set<T>, dep: T)
    requires visited <= U && dep in U && dep !in visited
    ensures |U - (visited + {dep})| < |U - visited|
  {
    assert U - (visited + {dep}) < U - visited;
  }

  /**
   * `add_dep(dep, visited)` on a dependency list `deps`: the new list, or the
   * error it raises. The error's message leaves out the object's default
   * representation, which would name its address.
   */
  function Walk<T(==,!new)>(g: T -> seq<T>, ghost U: set<T>, visited: set<T>, dep: T, deps: seq<T>): Result<seq<T>>
    requires Closed(g, U) && visited <= U && dep in U
    decreases |U - visited|, 0, 0
  {
    if dep in visited then Err(FatalError("recursive dependency"))
    else
      DiffShrinks(U, visited, dep);
      match WalkAll(g, U, visited + {dep}, g(dep), deps)
      case Err(e) => Err(e)
      case Ok(d) => Ok(if dep in d then d else d + [dep])
  }

  /** The `for nested_dep in ...: add_dep(nested_dep, set(visited))` loop. */
  function WalkAll<T(==,!new)>(g: T -> seq<T>, ghost U: set<T>, visited: set<T>, ds: seq<T>, deps: seq<T>): Result<seq<T>>
    requires Closed(g, U) && visited <= U && AllIn(ds, U)
    decreases |U - visited|, 1, |ds|
  {
    if |ds| == 0 then Ok(deps)
    else
      match Walk(g, U, visited, ds[0], deps)
      case Err(e) => Err(e)
      case Ok(d) => WalkAll(g, U, visited, ds[1..], d)
  }

  /** Every direct dependency of every object, in order. */
  function DirectDeps<T(!new)>(g: T -> seq<T>, objs: seq<T>): (ds: seq<T>)
    ensures forall x :: x in ds <==> exists o :: o in objs && x in g(o)
    decreases |objs|
  {
    if |objs| == 0 then [] else g(objs[0]) + DirectDeps(g, objs[1..])
  }

  lemma {:induction false} DirectDepsIn<T(!new)>(g: T -> seq<T>, U: set<T>, objs: seq<T>)
    requires Closed(g, U) && AllIn(objs, U)
    ensures AllIn(DirectDeps(g, objs), U)
    decreases |objs|
  {
    if |objs| > 0 {
      DirectDepsIn(g, U, objs[1..]);
      var head := g(objs[0]);
      var rest := DirectDeps(g, objs[1..]);
      forall i | 0 <= i < |head + rest| ensures (head + rest)[i] in U {
        if i < |head| {
          assert (head + rest)[i] == g(objs[0])[i];
        } else {
          assert (head + rest)[i] == rest[i - |head|];
        }
      }
    }
  }

  /**
   * `_get_deps(objs)`: every `add_dep(dep, set())` for the dependencies of
   * the objects, in order, each starting from an empty path.
   */
  function GetDeps<T(==,!new)>(g: T -> seq<T>, ghost U: set<T>, objs: seq<T>): Result<seq<T>>
    requires Closed(g, U) && AllIn(objs, U)
  {
    DirectDepsIn(g, U, objs);
    WalkAll(g, U, {}, DirectDeps(g, objs), [])
  }

  // ---------------------------------------------------------------------
  // Graph vocabulary.

  /** A walk along dependency edges. */
  ghost predicate IsPath<T(!new)>(g: T -> seq<T>, p: seq<T>)
  {
    |p| > 0 && forall i :: 0 <= i < |p| - 1 ==> p[i + 1] in g(p[i])
  }

  /** `x` is a dependency of an object, directly or transitively. */
  ghost predicate Reachable<T(!new)>(g: T -> seq<T>, objs: seq<T>, x: T)
  {
    exists p :: IsPath(g, p) && p[0] in DirectDeps(g, objs) && p[|p| - 1] == x
  }

  /** Some dependency chain starting at a direct dependency visits a node twice. */
  ghost predicate HasCycle<T(!new)>(g: T -> seq<T>, objs: seq<T>)
  {
    exists p :: IsPath(g, p) && p[0] in DirectDeps(g, objs) && !Strs.NoDuplicates(p)
  }

  /** Every node appears after all of its own dependencies. */
  ghost predicate PostOrdered<T(!new)>(g: T -> seq<T>, s: seq<T>)
  {
    forall i, k :: 0 <= i < |s| && 0 <= k < |g(s[i])| ==> g(s[i])[k] in s[..i]
  }

  // ---------------------------------------------------------------------
  // The outcome does not depend on the list built so far.

  lemma {:induction false} WalkOkIndependent<T(!new)>(g: T -> seq<T>, U: set<T>, visited: set<T>, dep: T, a: seq<T>, b: seq<T>)
    requires Closed(g, U) && visited <= U && dep in U
    ensures Walk(g, U, visited, dep, a).Ok? == Walk(g, U, visited, dep, b).Ok?
    decreases |U - visited|, 0, 0
  {
    if dep !in visited {
      DiffShrinks(U, visited, dep);
      WalkAllOkIndependent(g, U, visited + {dep}, g(dep), a, b);
    }
  }

  lemma {:induction false} WalkAllOkIndependent<T(!new)>(g: T -> seq<T>, U: set<T>, visited: set<T>, ds: seq<T>, a: seq<T>, b: seq<T>)
    requires Closed(g, U) && visited <= U && AllIn(ds, U)
    ensures WalkAll(g, U, visited, ds, a).Ok? == WalkAll(g, U, visited, ds, b).Ok?
    decreases |U - visited|, 1, |ds|
  {
    if |ds| > 0 {
      WalkOkIndependent(g, U, visited, ds[0], a, b);
      var ra := Walk(g, U, visited, ds[0], a);
      var rb := Walk(g, U, visited, ds[0], b);
      if ra.Ok? {
        WalkAllOkIndependent(g, U, visited, ds[1..], ra.value, rb.value);
      }
    }
  }

  /** A successful loop means each nested walk succeeds. */
  lemma {:induction false} WalkAllOkEach<T(!new)>(g: T -> seq<T>, U: set<T>, visited: set<T>, ds: seq<T>, deps: seq<T>, j: nat)
    requires Closed(g, U) && visited <= U && AllIn(ds, U)
    requires WalkAll(g, U, visited, ds, deps).Ok? && j < |ds|
    ensures Walk(g, U, visited, ds[j], deps).Ok?
    decreases |ds|
  {
    var r := Walk(g, U, visited, ds[0], deps);
    if j > 0 {
      WalkAllOkEach(g, U, visited, ds[1..], r.value, j - 1);
      WalkOkIndependent(g, U, visited, ds[j], r.value, deps);
    }
  }

  /** A failing loop has a failing nested walk. */
  lemma {:induction false} WalkAllErrSome<T(!new)>(g: T -> seq<T>, U: set<T>, visited: set<T>, ds: seq<T>, deps: seq<T>) returns (j: nat)
    requires Closed(g, U) && visited <= U && AllIn(ds, U)
    requires WalkAll(g, U, visited, ds, deps).Err?
    ensures j < |ds| && Walk(g, U, visited, ds[j], deps).Err?
    decreases |ds|
  {
    var r := Walk(g, U, visited, ds[0], deps);
    if r.Err? {
      j := 0;
    } else {
      var j' := WalkAllErrSome(g, U, visited, ds[1..], r.value);
      WalkOkIndependent(g, U, visited, ds[j' + 1], r.value, deps);
      j := j' + 1;
    }
  }

  // ---------------------------------------------------------------------
  // Cycle detection.

  /** If the walk from `dep` succeeds, every chain from `dep` is simple and stays off the path. */
  lemma {:induction false} WalkOkSimple<T(!new)>(g: T -> seq<T>, U: set<T>, visited: set<T>, dep: T, deps: seq<T>, p: seq<T>)
    requires Closed(g, U) && visited <= U && dep in U
    requires Walk(g, U, visited, dep, deps).Ok?
    requires IsPath(g, p) && p[0] == dep
    ensures Strs.NoDuplicates(p)
    ensures forall k :: 0 <= k < |p| ==> p[k] !in visited
    decreases |p|
  {
    if |p| > 1 {
      DiffShrinks(U, visited, dep);
      var j :| 0 <= j < |g(dep)| && g(dep)[j] == p[1];
      WalkAllOkEach(g, U, visited + {dep}, g(dep), deps, j);
      var tail := p[1..];
      assert IsPath(g, tail) by {
        forall i | 0 <= i < |tail| - 1 ensures tail[i + 1] in g(tail[i]) {
          assert tail[i + 1] == p[i + 2] && tail[i] == p[i + 1];
        }
      }
      WalkOkSimple(g, U, visited + {dep}, p[1], deps, tail);
      forall a, b | 0 <= a < b < |p| ensures p[a] != p[b] {
        assert p[b] == tail[b - 1];
        if a > 0 {
          assert p[a] == tail[a - 1];
        }
      }
      forall k | 0 <= k < |p| ensures p[k] !in visited {
        if k > 0 {
          assert p[k] == tail[k - 1];
        }
      }
    }
  }

  /** If the walk from `dep` fails, some chain from `dep` ends on the path or repeats a node. */
  lemma {:induction false} WalkErrPath<T(!new)>(g: T -> seq<T>, U: set<T>, visited: set<T>, dep: T, deps: seq<T>) returns (p: seq<T>)
    requires Closed(g, U) && visited <= U && dep in U
    requires Walk(g, U, visited, dep, deps).Err?
    ensures IsPath(g, p) && p[0] == dep
    ensures p[|p| - 1] in visited || !Strs.NoDuplicates(p)
    decreases |U - visited|
  {
    if dep in visited {
      p := [dep];
    } else {
      DiffShrinks(U, visited, dep);
      var j := WalkAllErrSome(g, U, visited + {dep}, g(dep), deps);
      var q := WalkErrPath(g, U, visited + {dep}, g(dep)[j], deps);
      p := [dep] + q;
      assert IsPath(g, p) by {
        forall i | 0 <= i < |p| - 1 ensures p[i + 1] in g(p[i]) {
          if i > 0 {
            assert p[i + 1] == q[i] && p[i] == q[i - 1];
          }
        }
      }
      if q[|q| - 1] in visited {
      } else if q[|q| - 1] == dep {
        assert p[0] == p[|p| - 1];
      } else {
        var a, b :| 0 <= a < b < |q| && q[a] == q[b];
        assert p[a + 1] == p[b + 1];
      }
    }
  }

  /** `_get_deps` fails exactly when some dependency chain runs into a cycle. */
  lemma GetDepsFailsIffCycle<T(!new)>(g: T -> seq<T>, U: set<T>, objs: seq<T>)
    requires Closed(g, U) && AllIn(objs, U)
    ensures GetDeps(g, U, objs).Err? <==> HasCycle(g, objs)
  {
    var ds := DirectDeps(g, objs);
    DirectDepsIn(g, U, objs);
    if GetDeps(g, U, objs).Err? {
      var j := WalkAllErrSome(g, U, {}, ds, []);
      var p := WalkErrPath(g, U, {}, ds[j], []);
      assert p[0] in ds;
    } else {
      forall p | IsPath(g, p) && p[0] in ds ensures Strs.NoDuplicates(p) {
        var j :| 0 <= j < |ds| && ds[j] == p[0];
        WalkAllOkEach(g, U, {}, ds, [], j);
        WalkOkSimple(g, U, {}, p[0], [], p);
      }
    }
  }

  /**
   * Asking for fewer objects cannot make `_get_deps` fail: a cycle below a
   * subset of `objs` is a cycle below `objs`.
   */
  lemma GetDepsSubsetErr<T(!new)>(g: T -> seq<T>, U: set<T>, sub: seq<T>, objs: seq<T>)
    requires Closed(g, U) && AllIn(objs, U) && AllIn(sub, U)
    requires forall o :: o in sub ==> o in objs
    requires GetDeps(g, U, sub).Err?
    ensures GetDeps(g, U, objs).Err?
  {
    GetDepsFailsIffCycle(g, U, sub);
    GetDepsFailsIffCycle(g, U, objs);
    var p :| IsPath(g, p) && p[0] in DirectDeps(g, sub) && !Strs.NoDuplicates(p);
    assert p[0] in DirectDeps(g, objs);
  }

  /** The failure, when there is one, is the 'recursive dependency' FatalError. */
  lemma {:induction false} WalkErrIsRecursive<T(!new)>(g: T -> seq<T>, U: set<T>, visited: set<T>, dep: T, deps: seq<T>)
    requires Closed(g, U) && visited <= U && dep in U
    requires Walk(g, U, visited, dep, deps).Err?
    ensures Walk(g, U, visited, dep, deps).error == FatalError("recursive dependency")
    decreases |U - visited|, 0, 0
  {
    if dep !in visited {
      DiffShrinks(U, visited, dep);
      WalkAllErrIsRecursive(g, U, visited + {dep}, g(dep), deps);
    }
  }

  lemma {:induction false} WalkAllErrIsRecursive<T(!new)>(g: T -> seq<T>, U: set<T>, visited: set<T>, ds: seq<T>, deps: seq<T>)
    requires Closed(g, U) && visited <= U && AllIn(ds, U)
    requires WalkAll(g, U, visited, ds, deps).Err?
    ensures WalkAll(g, U, visited, ds, deps).error == FatalError("recursive dependency")
    decreases |U - visited|, 1, |ds|
  {
    var r := Walk(g, U, visited, ds[0], deps);
    if r.Err? {
      WalkErrIsRecursive(g, U, visited, ds[0], deps);
    } else {
      WalkAllErrIsRecursive(g, U, visited, ds[1..], r.value);
    }
  }

  /**
   * A diamond (two objects sharing a dependency) is not a cycle: in the
   * graph a -> b, a -> c, b -> d, c -> d the walk from [a] succeeds and
   * lists d once, before b and c.  An illustration on one graph; the
   * general statement is `GetDepsFailsIffCycle`.
   */
  lemma DiamondIsAccepted()
    ensures GetDeps(DiamondGraph, {"a", "b", "c", "d"}, ["a"]) == Ok(["d", "b", "c"])
  {
    var g := DiamondGraph;
    var U := {"a", "b", "c", "d"};
    assert DirectDeps(g, ["a"]) == ["b", "c"] by {
      assert g("a") == ["b", "c"];
      assert DirectDeps(g, ["a"][1..]) == [];
    }
    DiamondLeft();
    DiamondRight();
    assert ["b", "c"][1..] == ["c"];
  }

  /** The walk of `b` from nothing visited lists `d`, then `b`. */
  lemma DiamondLeft()
    ensures Walk(DiamondGraph, {"a", "b", "c", "d"}, {}, "b", []) == Ok(["d", "b"])
  {
    var g := DiamondGraph;
    var U := {"a", "b", "c", "d"};
    assert g("b") == ["d"] && g("d") == [];
    assert WalkAll(g, U, {"b", "d"}, [], []) == Ok([]);
    assert {"b"} + {"d"} == {"b", "d"};
    assert "d" !in {"b"} && [] + ["d"] == ["d"];
    assert Walk(g, U, {"b"}, "d", []) == Ok(["d"]);
    assert WalkAll(g, U, {"b"}, ["d"], []) == Ok(["d"]) by {
      assert ["d"][1..] == [];
    }
    assert {} + {"b"} == {"b"};
    assert "b" !in ["d"] && ["d"] + ["b"] == ["d", "b"];
  }

  /** The walk of `c` then finds `d` listed already and adds only `c`. */
  lemma DiamondRight()
    ensures WalkAll(DiamondGraph, {"a", "b", "c", "d"}, {}, ["c"], ["d", "b"]) == Ok(["d", "b", "c"])
  {
    var g := DiamondGraph;
    var U := {"a", "b", "c", "d"};
    assert g("c") == ["d"] && g("d") == [];
    assert WalkAll(g, U, {"c", "d"}, [], ["d", "b"]) == Ok(["d", "b"]);
    assert {"c"} + {"d"} == {"c", "d"};
    assert Walk(g, U, {"c"}, "d", ["d", "b"]) == Ok(["d", "b"]);
    assert WalkAll(g, U, {"c"}, ["d"], ["d", "b"]) == Ok(["d", "b"]) by {
      assert ["d"][1..] == [];
    }
    assert "c" !in ["d", "b"] && ["d", "b"] + ["c"] == ["d", "b", "c"];
    assert {} + {"c"} == {"c"};
    assert Walk(g, U, {}, "c", ["d", "b"]) == Ok(["d", "b", "c"]);
    assert ["c"][1..] == [];
  }

  function DiamondGraph(x: string): seq<string>
  {
    if x == "a" then ["b", "c"] else if x == "b" || x == "c" then ["d"] else []
  }

  // ---------------------------------------------------------------------
  // Shape of a successful result.

  /** A successful walk extends the list, keeps it duplicate-free and post-ordered, and lists `dep`. */
  lemma {:induction false} WalkOkShape<T(!new)>(g: T -> seq<T>, U: set<T>, visited: set<T>, dep: T, deps: seq<T>)
    requires Closed(g, U) && visited <= U && dep in U
    requires Strs.NoDuplicates(deps) && PostOrdered(g, deps)
    requires Walk(g, U, visited, dep, deps).Ok?
    ensures var r := Walk(g, U, visited, dep, deps).value;
      deps <= r && Strs.NoDuplicates(r) && PostOrdered(g, r) && dep in r
    decreases |U - visited|, 0, 0
  {
    DiffShrinks(U, visited, dep);
    WalkAllOkShape(g, U, visited + {dep}, g(dep), deps);
    var d := WalkAll(g, U, visited + {dep}, g(dep), deps).value;
    if dep !in d {
      var r := d + [dep];
      forall i, k | 0 <= i < |r| && 0 <= k < |g(r[i])| ensures g(r[i])[k] in r[..i] {
        if i < |d| {
          assert r[..i] == d[..i];
        } else {
          assert r[..i] == d;
        }
      }
    }
  }

  lemma {:induction false} WalkAllOkShape<T(!new)>(g: T -> seq<T>, U: set<T>, visited: set<T>, ds: seq<T>, deps: seq<T>)
    requires Closed(g, U) && visited <= U && AllIn(ds, U)
    requires Strs.NoDuplicates(deps) && PostOrdered(g, deps)
    requires WalkAll(g, U, visited, ds, deps).Ok?
    ensures var r := WalkAll(g, U, visited, ds, deps).value;
      deps <= r && Strs.NoDuplicates(r) && PostOrdered(g, r) && forall i :: 0 <= i < |ds| ==> ds[i] in r
    decreases |U - visited|, 1, |ds|
  {
    if |ds| > 0 {
      WalkOkShape(g, U, visited, ds[0], deps);
      var d := Walk(g, U, visited, ds[0], deps).value;
      WalkAllOkShape(g, U, visited, ds[1..], d);
      var r := WalkAll(g, U, visited, ds[1..], d).value;
      forall i | 0 <= i < |ds| ensures ds[i] in r {
        if i == 0 {
          assert ds[0] in d;
        } else {
          assert ds[i] == ds[1..][i - 1];
        }
      }
    }
  }

  /** Everything a successful walk adds is `dep` or one of its transitive dependencies. */
  lemma {:induction false} WalkOkSound<T(!new)>(g: T -> seq<T>, U: set<T>, visited: set<T>, dep: T, deps: seq<T>, z: T) returns (p: seq<T>)
    requires Closed(g, U) && visited <= U && dep in U
    requires Walk(g, U, visited, dep, deps).Ok?
    requires z in Walk(g, U, visited, dep, deps).value && z !in deps
    ensures IsPath(g, p) && p[0] == dep && p[|p| - 1] == z
    decreases |U - visited|, 0, 0
  {
    DiffShrinks(U, visited, dep);
    var d := WalkAll(g, U, visited + {dep}, g(dep), deps).value;
    if z in d {
      var j, q := WalkAllOkSound(g, U, visited + {dep}, g(dep), deps, z);
      p := [dep] + q;
      forall i | 0 <= i < |p| - 1 ensures p[i + 1] in g(p[i]) {
        if i > 0 {
          assert p[i + 1] == q[i] && p[i] == q[i - 1];
        }
      }
    } else {
      p := [dep];
    }
  }

  lemma {:induction false} WalkAllOkSound<T(!new)>(g: T -> seq<T>, U: set<T>, visited: set<T>, ds: seq<T>, deps: seq<T>, z: T) returns (j: nat, p: seq<T>)
    requires Closed(g, U) && visited <= U && AllIn(ds, U)
    requires WalkAll(g, U, visited, ds, deps).Ok?
    requires z in WalkAll(g, U, visited, ds, deps).value && z !in deps
    ensures j < |ds| && IsPath(g, p) && p[0] == ds[j] && p[|p| - 1] == z
    decreases |U - visited|, 1, |ds|
  {
    var d := Walk(g, U, visited, ds[0], deps).value;
    if z in d {
      j := 0;
      p := WalkOkSound(g, U, visited, ds[0], deps, z);
    } else {
      var j';
      j', p := WalkAllOkSound(g, U, visited, ds[1..], d, z);
      j := j' + 1;
    }
  }

  /** A post-ordered list is closed under dependencies, so it holds every chain from its members. */
  lemma {:induction false} PostOrderedHoldsPaths<T(!new)>(g: T -> seq<T>, s: seq<T>, p: seq<T>)
    requires PostOrdered(g, s) && IsPath(g, p) && p[0] in s
    ensures forall k :: 0 <= k < |p| ==> p[k] in s
    decreases |p|
  {
    if |p| > 1 {
      var i :| 0 <= i < |s| && s[i] == p[0];
      var k :| 0 <= k < |g(p[0])| && g(p[0])[k] == p[1];
      assert g(s[i])[k] in s[..i];
      var tail := p[1..];
      assert IsPath(g, tail) by {
        forall m | 0 <= m < |tail| - 1 ensures tail[m + 1] in g(tail[m]) {
          assert tail[m + 1] == p[m + 2] && tail[m] == p[m + 1];
        }
      }
      PostOrderedHoldsPaths(g, s, tail);
      forall m | 0 <= m < |p| ensures p[m] in s {
        if m > 0 {
          assert p[m] == tail[m - 1];
        }
      }
    }
  }

  /**
   * A successful `_get_deps` lists exactly the reachable dependencies, each
   * once, every one after all of its own dependencies.
   */
  /** A successful walk lists only objects of `U`. */
  lemma {:induction false} WalkInU<T(!new)>(g: T -> seq<T>, U: set<T>, visited: set<T>, dep: T, deps: seq<T>)
    requires Closed(g, U) && visited <= U && dep in U && AllIn(deps, U)
    requires Walk(g, U, visited, dep, deps).Ok?
    ensures AllIn(Walk(g, U, visited, dep, deps).value, U)
    decreases |U - visited|, 0, 0
  {
    DiffShrinks(U, visited, dep);
    WalkAllInU(g, U, visited + {dep}, g(dep), deps);
    var d := WalkAll(g, U, visited + {dep}, g(dep), deps).value;
    assert forall i :: 0 <= i < |d + [dep]| ==> (d + [dep])[i] == if i < |d| then d[i] else dep;
  }

  lemma {:induction false} WalkAllInU<T(!new)>(g: T -> seq<T>, U: set<T>, visited: set<T>, ds: seq<T>, deps: seq<T>)
    requires Closed(g, U) && visited <= U && AllIn(ds, U) && AllIn(deps, U)
    requires WalkAll(g, U, visited, ds, deps).Ok?
    ensures AllIn(WalkAll(g, U, visited, ds, deps).value, U)
    decreases |U - visited|, 1, |ds|
  {
    if |ds| > 0 {
      WalkInU(g, U, visited, ds[0], deps);
      WalkAllInU(g, U, visited, ds[1..], Walk(g, U, visited, ds[0], deps).value);
    }
  }

  lemma GetDepsInU<T(!new)>(g: T -> seq<T>, U: set<T>, objs: seq<T>)
    requires Closed(g, U) && AllIn(objs, U)
    requires GetDeps(g, U, objs).Ok?
    ensures AllIn(GetDeps(g, U, objs).value, U)
  {
    DirectDepsIn(g, U, objs);
    WalkAllInU(g, U, {}, DirectDeps(g, objs), []);
  }

  lemma GetDepsOk<T(!new)>(g: T -> seq<T>, U: set<T>, objs: seq<T>)
    requires Closed(g, U) && AllIn(objs, U)
    requires GetDeps(g, U, objs).Ok?
    ensures var r := GetDeps(g, U, objs).value;
      Strs.NoDuplicates(r) && PostOrdered(g, r) && forall x :: x in r <==> Reachable(g, objs, x)
  {
    var ds := DirectDeps(g, objs);
    DirectDepsIn(g, U, objs);
    WalkAllOkShape(g, U, {}, ds, []);
    var r := GetDeps(g, U, objs).value;
    forall x ensures x in r <==> Reachable(g, objs, x) {
      if x in r {
        var j, p := WalkAllOkSound(g, U, {}, ds, [], x);
      }
      if Reachable(g, objs, x) {
        var p :| IsPath(g, p) && p[0] in ds && p[|p| - 1] == x;
        PostOrderedHoldsPaths(g, r, p);
      }
    }
  }

  /** Post-order extends to transitive dependencies: anything reachable from `s[i]` sits before it. */
  lemma {:induction false} PostOrderedTransitive<T(!new)>(g: T -> seq<T>, s: seq<T>, i: nat, p: seq<T>)
    requires PostOrdered(g, s) && i < |s|
    requires IsPath(g, p) && |p| > 1 && p[0] == s[i]
    ensures p[|p| - 1] in s[..i]
    decreases |p|
  {
    assert p[1] in g(s[i]);
    var k :| 0 <= k < |g(s[i])| && g(s[i])[k] == p[1];
    assert p[1] in s[..i];
    var i' :| 0 <= i' < i && s[i'] == p[1];
    if |p| > 2 {
      var tail := p[1..];
      assert IsPath(g, tail) by {
        forall m | 0 <= m < |tail| - 1 ensures tail[m + 1] in g(tail[m]) {
          assert tail[m + 1] == p[m + 2] && tail[m] == p[m + 1];
        }
      }
      PostOrderedTransitive(g, s, i', tail);
      assert s[..i'] <= s[..i];
    }
  }

  // ---------------------------------------------------------------------
  // The imperative walk: `add_dep` appends to the enclosing `deps` list.

  class DepWalker<T(==,!new)> {
    const g: T -> seq<T>
    ghost const U: set<T>
    var deps: seq<T>

    constructor(g: T -> seq<T>, ghost U: set<T>)
      ensures this.g == g && this.U == U && deps == []
    {
      this.g := g;
      this.U := U;
      deps := [];
    }

    /** `add_dep(dep, visited)`; on failure the list is left as the raise found it. */
    method AddDep(dep: T, visited: set<T>) returns (err: Option<Error>)
      requires Closed(g, U) && visited <= U && dep in U
      modifies this
      ensures Walk(g, U, visited, dep, old(deps)).Ok? ==>
        err == None && deps == Walk(g, U, visited, dep, old(deps)).value
      ensures Walk(g, U, visited, dep, old(deps)).Err? ==>
        err == Some(Walk(g, U, visited, dep, old(deps)).error)
      decreases |U - visited|
    {
      if dep in visited {
        return Some(FatalError("recursive dependency"));
      }
      DiffShrinks(U, visited, dep);
      var path := visited + {dep};
      var nested := g(dep);
      ghost var start := deps;
      var i := 0;
      while i < |nested|
        invariant 0 <= i <= |nested|
        invariant WalkAll(g, U, path, nested, start) == WalkAll(g, U, path, nested[i..], deps)
      {
        assert nested[i..][1..] == nested[i + 1..];
        err := AddDep(nested[i], path);
        if err.Some? {
          return;
        }
        i := i + 1;
      }
      if dep !in deps {
        deps := deps + [dep];
      }
      err := None;
    }
  }

  /** The inner loop of `_get_deps`: `add_dep` on each of `ds`, stopping at the first failure. */
  method AddEach<T(==,!new)>(w: DepWalker<T>, ds: seq<T>, ghost tail: seq<T>) returns (err: Option<Error>)
    requires Closed(w.g, w.U) && AllIn(ds, w.U) && AllIn(tail, w.U)
    modifies w
    ensures err.None? ==> WalkAll(w.g, w.U, {}, ds + tail, old(w.deps)) == WalkAll(w.g, w.U, {}, tail, w.deps)
    ensures err.Some? ==> WalkAll(w.g, w.U, {}, ds + tail, old(w.deps)) == Err(err.value)
  {
    var j := 0;
    while j < |ds|
      invariant 0 <= j <= |ds|
      invariant WalkAll(w.g, w.U, {}, ds + tail, old(w.deps)) == WalkAll(w.g, w.U, {}, ds[j..] + tail, w.deps)
    {
      var rest := ds[j..] + tail;
      assert rest[0] == ds[j] && rest[1..] == ds[j + 1..] + tail;
      err := w.AddDep(ds[j], {});
      if err.Some? {
        return;
      }
      j := j + 1;
    }
    assert ds[|ds|..] + tail == tail;
    err := None;
  }

  /** `_get_deps(objs)`, run with the walker. */
  method GetDepsOf<T(==,!new)>(g: T -> seq<T>, ghost U: set<T>, objs: seq<T>) returns (r: Result<seq<T>>)
    requires Closed(g, U) && AllIn(objs, U)
    ensures r == GetDeps(g, U, objs)
  {
    var w := new DepWalker(g, U);
    DirectDepsIn(g, U, objs);
    ghost var all := DirectDeps(g, objs);
    var i := 0;
    while i < |objs|
      invariant 0 <= i <= |objs| && w.g == g && w.U == U
      invariant AllIn(DirectDeps(g, objs[i..]), U)
      invariant WalkAll(g, U, {}, all, []) == WalkAll(g, U, {}, DirectDeps(g, objs[i..]), w.deps)
    {
      var ds := g(objs[i]);
      assert DirectDeps(g, objs[i..]) == ds + DirectDeps(g, objs[i + 1..]) by {
        assert objs[i..][1..] == objs[i + 1..];
      }
      DirectDepsIn(g, U, objs[i + 1..]);
      var err := AddEach(w, ds, DirectDeps(g, objs[i + 1..]));
      if err.Some? {
        return Err(err.value);
      }
      i := i + 1;
    }
    return Ok(w.deps);
  }
}
