/**
 * The module instantiator (include/ModuleInstantiator.h): it holds the registered modules
 * and turns an ordered list of (module name, instance name) requests into modules added to
 * the controller. Duplicate requests are warned about and erased, a request for an unknown
 * module is warned about and skipped, and the registered modules are first checked for
 * repeated names.
 *
 * The computation log's warnings and the controller's `addModule` calls are recorded, in
 * order, in one trace of actions.
 */
module ModuleInstantiators {
  import opened Wrappers
  import Modules

  /** A `std::pair` of module name and instance name; pairs compare both. */
  datatype Request = Request(moduleName: string, instanceName: string)

  /**
   * A warning written to the computation log, or `controller.addModule(*modules[index])`.
   * The warnings carry what they are about; `LogText` gives the line that is written.
   */
  datatype Action =
    | SeveralModules(name: string)
    | DuplicateRequest(request: Request)
    | NotRegistered(name: string)
    | AddModule(index: nat, instanceName: string)
  {
    predicate IsWarning() {
      !AddModule?
    }
  }

  /** The text of a warning, as written to the computation log. */
  function LogText(w: Action): (text: string)
    requires w.IsWarning()
    ensures |text| > 0
  {
    match w
    case SeveralModules(name) =>
      "Several modules with name '" + name + "' registered at ModuleInstantiator, duplicates will be ignored during module instantiation"
    case DuplicateRequest(r) =>
      "Duplicate module '" + r.moduleName + "' instance '" + r.instanceName + "' requested for instantiation at ModuleInstantiator, duplicates will be ignored"
    case NotRegistered(name) =>
      "Module '" + name + "' is not registered at ModuleInstantiator, instantiation request ignored"
  }

  // ---- checkModuleDuplicates ----

  /** The warnings of the inner loop of `checkModuleDuplicates` for module `i`, over `j` in `[lo, hi)`. */
  function RowWarnings(names: seq<string>, i: nat, lo: nat, hi: nat): seq<Action>
    requires i < |names| && hi <= |names|
    decreases hi
  {
    if hi <= lo then []
    else RowWarnings(names, i, lo, hi - 1) + (if names[i] == names[hi - 1] then [SeveralModules(names[i])] else [])
  }

  /** `checkModuleDuplicates` as written, for the first `n` modules: every pair (i, j), `i == j` included. */
  function DuplicateNameWarnings(names: seq<string>, n: nat): seq<Action>
    requires n <= |names|
  {
    if n == 0 then [] else DuplicateNameWarnings(names, n - 1) + RowWarnings(names, n - 1, 0, |names|)
  }

  /** The row of module `i` is empty exactly when no module in `[lo, hi)` shares its name. */
  lemma {:induction false} RowWarningsEmpty(names: seq<string>, i: nat, lo: nat, hi: nat)
    requires i < |names| && hi <= |names|
    ensures RowWarnings(names, i, lo, hi) == [] <==> forall k :: lo <= k < hi ==> names[k] != names[i]
  {
    if lo < hi {
      RowWarningsEmpty(names, i, lo, hi - 1);
    }
  }

  /** As written, every registered module is reported as a duplicate of itself at least once. */
  lemma {:induction false} DuplicateNameWarningsAtLeastOnePerModule(names: seq<string>, n: nat)
    requires n <= |names|
    ensures |DuplicateNameWarnings(names, n)| >= n
  {
    if n > 0 {
      RowWarningsEmpty(names, n - 1, 0, |names|);
      DuplicateNameWarningsAtLeastOnePerModule(names, n - 1);
    }
  }

  /** A single module with a unique name draws a duplicate warning as written. */
  lemma DuplicateNamesCounterexample()
    ensures DuplicateNameWarnings(["a"], 1) == [SeveralModules("a")]
    ensures DuplicateNameWarningsIntended(["a"], 1) == []
  {
    assert RowWarnings(["a"], 0, 0, 1) == [SeveralModules("a")];
  }

  /** `checkModuleDuplicates` as intended, for the first `n` modules: only the pairs `i < j`. */
  function DuplicateNameWarningsIntended(names: seq<string>, n: nat): seq<Action>
    requires n <= |names|
  {
    if n == 0 then [] else DuplicateNameWarningsIntended(names, n - 1) + RowWarnings(names, n - 1, n, |names|)
  }

  /** As intended, there is no warning exactly when the registered names are all different. */
  lemma {:induction false} DuplicateNameWarningsIntendedSpec(names: seq<string>, n: nat)
    requires n <= |names|
    ensures DuplicateNameWarningsIntended(names, n) == [] <==>
      forall p, q :: 0 <= p < n && p < q < |names| ==> names[p] != names[q]
  {
    if n > 0 {
      var earlier := DuplicateNameWarningsIntended(names, n - 1);
      var row := RowWarnings(names, n - 1, n, |names|);
      assert DuplicateNameWarningsIntended(names, n) == earlier + row;
      assert earlier + row == [] <==> earlier == [] && row == [] by {
        if earlier + row == [] {
          assert |earlier| + |row| == 0;
        }
      }
      RowWarningsEmpty(names, n - 1, n, |names|);
      DuplicateNameWarningsIntendedSpec(names, n - 1);
      if earlier == [] && row == [] {
        forall p, q | 0 <= p < n && p < q < |names| ensures names[p] != names[q] {
          if p == n - 1 {
            assert names[q] != names[n - 1];
          }
        }
      }
      if forall p, q :: 0 <= p < n && p < q < |names| ==> names[p] != names[q] {
        forall k | n <= k < |names| ensures names[k] != names[n - 1] {
          assert names[n - 1] != names[k];
        }
      }
    }
  }

  // ---- instantiate ----

  /** The first registered module with the given name. */
  function FirstIndex(names: seq<string>, name: string): (r: Option<nat>)
    ensures r.Some? ==> r.value < |names| && names[r.value] == name
    ensures r.Some? ==> forall q :: 0 <= q < r.value ==> names[q] != name
    ensures r.None? <==> forall q :: 0 <= q < |names| ==> names[q] != name
    decreases |names|
  {
    if names == [] then None
    else if names[0] == name then Some(0)
    else match FirstIndex(names[1..], name)
      case None => None
      case Some(k) => Some(k + 1)
  }

  /** The lookup for one request: add the first module of that name, or warn that there is none. */
  function Lookup(names: seq<string>, r: Request): (acts: seq<Action>)
    ensures |acts| == 1
    ensures acts[0].AddModule? <==> r.moduleName in names
    ensures !acts[0].AddModule? ==> acts[0] == NotRegistered(r.moduleName)
    ensures acts[0].AddModule? ==> acts[0] == AddModule(FirstIndex(names, r.moduleName).value, r.instanceName)
  {
    match FirstIndex(names, r.moduleName)
    case Some(k) => [AddModule(k, r.instanceName)]
    case None => [NotRegistered(r.moduleName)]
  }

  /**
   * The inner duplicate loop for request `i`, from position `j`: an equal request is erased
   * and `j` still advances, so the request moved into position `j` is not compared.
   */
  function EraseScan(a: seq<Request>, i: nat, j: nat, found: bool): (r: (seq<Request>, bool))
    requires i < |a| && i < j
    ensures |r.0| <= |a| && i < |r.0| && r.0[..i + 1] == a[..i + 1]
    ensures found ==> r.1
    decreases |a| - j
  {
    if j >= |a| then (a, found)
    else if a[i] == a[j] then EraseScan(a[..j] + a[j + 1..], i, j + 1, true)
    else EraseScan(a, i, j + 1, found)
  }

  /**
   * One outer iteration of `instantiate` at position `i`: the duplicate warning (worded
   * from `requests[i]`) and the lookup, and the `activeRequests` left by the erasures.
   */
  function Step(requests: seq<Request>, names: seq<string>, active: seq<Request>, i: nat): (r: (seq<Action>, seq<Request>))
    requires i < |active| <= |requests|
    ensures |r.1| <= |active| && i < |r.1| && r.1[..i + 1] == active[..i + 1]
  {
    var scan := EraseScan(active, i, i + 1, false);
    ((if scan.1 then [DuplicateRequest(requests[i])] else []) + Lookup(names, scan.0[i]), scan.0)
  }

  /** `instantiate` from outer iteration `i` on, with `active` the current `activeRequests`. */
  function Process(requests: seq<Request>, names: seq<string>, active: seq<Request>, i: nat): seq<Action>
    requires |active| <= |requests|
    decreases |active| - i
  {
    if i >= |active| then []
    else
      var step := Step(requests, names, active, i);
      step.0 + Process(requests, names, step.1, i + 1)
  }

  /** The scan from `j` reports a duplicate exactly when one was already found or some later request equals request `i`. */
  lemma {:induction false} EraseScanFinds(a: seq<Request>, i: nat, j: nat, found: bool)
    requires i < |a| && i < j
    ensures EraseScan(a, i, j, found).1 <==> found || exists k :: j <= k < |a| && a[k] == a[i]
    decreases |a| - j
  {
    if j < |a| && a[i] != a[j] {
      EraseScanFinds(a, i, j + 1, found);
    }
  }

  /**
   * While request `i` is processed, one duplicate warning is written exactly when an equal
   * request follows it, and then its lookup.
   */
  lemma StepWarnsOncePerDuplicatedRequest(requests: seq<Request>, names: seq<string>, active: seq<Request>, i: nat)
    requires i < |active| <= |requests|
    ensures Step(requests, names, active, i).0 ==
      (if exists k :: i < k < |active| && active[k] == active[i] then [DuplicateRequest(requests[i])] else [])
        + Lookup(names, active[i])
  {
    EraseScanFinds(active, i, i + 1, false);
    var r := EraseScan(active, i, i + 1, false).0;
    assert r[i] == r[..i + 1][i] == active[..i + 1][i];
  }

  /** `activeRequests` once `instantiate` has finished: the requests it looked up, in order. */
  function FinalActive(active: seq<Request>, i: nat): seq<Request>
    decreases |active| - i
  {
    if i >= |active| then active else FinalActive(EraseScan(active, i, i + 1, false).0, i + 1)
  }

  /** Two identical requests give one duplicate warning and one `addModule`. */
  lemma TwoIdenticalRequests(r: Request)
    ensures Process([r, r], [r.moduleName], [r, r], 0)
         == [DuplicateRequest(r), AddModule(0, r.instanceName)]
  {
    var rr := [r, r];
    assert rr[..1] + rr[2..] == [r];
    assert EraseScan(rr, 0, 1, false) == ([r], true);
    assert Process(rr, [r.moduleName], [r], 1) == [];
  }

  /** A request for a module that is not registered gives exactly one warning and no `addModule`. */
  lemma UnknownModule(r: Request, names: seq<string>)
    requires r.moduleName !in names
    ensures Process([r], names, [r], 0) == [NotRegistered(r.moduleName)]
  {
    assert EraseScan([r], 0, 1, false) == ([r], false);
  }

  /**
   * Three identical requests: erasing the second moves the third into the position that is
   * skipped next, so one duplicate survives and the module is added twice.
   */
  lemma EraseSkipCounterexample(r: Request)
    ensures FinalActive([r, r, r], 0) == [r, r]
    ensures Process([r, r, r], [r.moduleName], [r, r, r], 0)
         == [DuplicateRequest(r), AddModule(0, r.instanceName), AddModule(0, r.instanceName)]
  {
    var r3, r2 := [r, r, r], [r, r];
    assert r3[..1] + r3[2..] == r2;
    assert EraseScan(r2, 0, 2, true) == (r2, true);
    assert EraseScan(r3, 0, 1, false) == (r2, true);
    assert EraseScan(r2, 1, 2, false) == (r2, false);
    assert FinalActive(r2, 1) == FinalActive(r2, 2) == r2;
    assert Process(r3, [r.moduleName], r2, 2) == [];
    assert Process(r3, [r.moduleName], r2, 1) == [AddModule(0, r.instanceName)];
  }

  /**
   * Requests A, A, B, B: after the erase at position 0, position 1 holds B, but its
   * duplicate warning is worded from `requests[1]`, which is A.
   */
  lemma WarningTextCounterexample()
    ensures var a, b := Request("a", "1"), Request("b", "1");
      Process([a, a, b, b], [], [a, a, b, b], 0) ==
        [DuplicateRequest(a), NotRegistered("a"),
         DuplicateRequest(a), NotRegistered("b")]
    ensures var a, b := Request("a", "1"), Request("b", "1");
      ProcessIntended([], [a, a, b, b]) ==
        [DuplicateRequest(a), NotRegistered("a"),
         DuplicateRequest(b), NotRegistered("b")]
  {
    var a, b := Request("a", "1"), Request("b", "1");
    var s0, s1, s2 := [a, a, b, b], [a, b, b], [a, b];
    assert s0[..1] + s0[2..] == s1;
    assert EraseScan(s1, 0, 2, true) == (s1, true);
    assert EraseScan(s0, 0, 1, false) == (s1, true);
    assert s1[..2] + s1[3..] == s2;
    assert EraseScan(s1, 1, 2, false) == (s2, true);
    assert Process(s0, [], s2, 2) == [];
    assert Process(s0, [], s1, 1) == [DuplicateRequest(a), NotRegistered("b")];
    assert s0[1..] == [a, b, b];
    assert a != b by { assert a.moduleName[0] != b.moduleName[0]; }
    assert Without([b], a) == [b] + Without([], a);
    assert [b, b][1..] == [b];
    assert Without([b, b], a) == [b] + Without([b], a);
    assert [a, b, b][1..] == [b, b];
    assert Without([a, b, b], a) == [b, b];
    assert Without([b], b) == [];
    assert ProcessIntended([], [b]) == [NotRegistered("b")];
  }

  // ---- instantiate, as intended ----

  /** `rs` without the requests equal to `r`, in order. */
  function Without(rs: seq<Request>, r: Request): (w: seq<Request>)
    ensures |w| <= |rs|
    ensures forall x :: x in w <==> x in rs && x != r
    decreases |rs|
  {
    if rs == [] then [] else (if rs[0] == r then [] else [rs[0]]) + Without(rs[1..], r)
  }

  /** The requests looked up when every later duplicate is erased: first occurrences, in order. */
  function Dedup(rs: seq<Request>): seq<Request>
    decreases |rs|
  {
    if rs == [] then [] else [rs[0]] + Dedup(Without(rs[1..], rs[0]))
  }

  /** Each distinct request is looked up exactly once: no repeats, and nothing requested is lost. */
  lemma {:induction false} DedupSpec(rs: seq<Request>)
    ensures forall x :: x in Dedup(rs) <==> x in rs
    ensures forall p, q :: 0 <= p < q < |Dedup(rs)| ==> Dedup(rs)[p] != Dedup(rs)[q]
    decreases |rs|
  {
    if rs != [] {
      var rest := Without(rs[1..], rs[0]);
      DedupSpec(rest);
      var d := Dedup(rs);
      assert d == [rs[0]] + Dedup(rest);
      forall p, q | 0 <= p < q < |d| ensures d[p] != d[q] {
        if p == 0 {
          assert d[q] == Dedup(rest)[q - 1];
          assert d[q] in Dedup(rest);
        } else {
          assert d[p] == Dedup(rest)[p - 1] && d[q] == Dedup(rest)[q - 1];
        }
      }
    }
  }

  /** `instantiate` as intended: every later duplicate erased, and the warning worded from the request itself. */
  function ProcessIntended(names: seq<string>, active: seq<Request>): seq<Action>
    decreases |active|
  {
    if active == [] then []
    else
      var r := active[0];
      var later := Without(active[1..], r);
      (if |later| < |active| - 1 then [DuplicateRequest(r)] else [])
        + Lookup(names, r)
        + ProcessIntended(names, later)
  }

  /** `Without` removes exactly the copies of `r`. */
  lemma {:induction false} WithoutMultiset(rs: seq<Request>, r: Request)
    ensures forall x :: multiset(Without(rs, r))[x] == if x == r then 0 else multiset(rs)[x]
    ensures |Without(rs, r)| == |rs| - multiset(rs)[r]
    decreases |rs|
  {
    if rs != [] {
      WithoutMultiset(rs[1..], r);
      assert rs == [rs[0]] + rs[1..];
    }
  }

  /** The lookups of a trace: every action but the duplicate warnings, in order. */
  function Lookups(acts: seq<Action>): seq<Action>
    decreases |acts|
  {
    if acts == [] then [] else (if acts[0].DuplicateRequest? then [] else [acts[0]]) + Lookups(acts[1..])
  }

  lemma {:induction false} LookupsAppend(a: seq<Action>, b: seq<Action>)
    ensures Lookups(a + b) == Lookups(a) + Lookups(b)
    decreases |a|
  {
    if a == [] {
      assert a + b == b;
    } else {
      assert (a + b)[0] == a[0] && (a + b)[1..] == a[1..] + b;
      LookupsAppend(a[1..], b);
      var head := if a[0].DuplicateRequest? then [] else [a[0]];
      AppendAssociates(head, Lookups(a[1..]), Lookups(b));
    }
  }

  /** The lookups of the requests `rs`, in order. */
  function LookupAll(names: seq<string>, rs: seq<Request>): seq<Action>
    decreases |rs|
  {
    if rs == [] then [] else Lookup(names, rs[0]) + LookupAll(names, rs[1..])
  }

  /** As intended, the requests looked up are exactly the first occurrences, in order. */
  lemma {:induction false} ProcessIntendedLookups(names: seq<string>, active: seq<Request>)
    ensures Lookups(ProcessIntended(names, active)) == LookupAll(names, Dedup(active))
    decreases |active|
  {
    if active != [] {
      var r := active[0];
      var later := Without(active[1..], r);
      var dup := if |later| < |active| - 1 then [DuplicateRequest(r)] else [];
      ProcessIntendedLookups(names, later);
      LookupsAppend(dup + Lookup(names, r), ProcessIntended(names, later));
      LookupsAppend(dup, Lookup(names, r));
      assert Lookups(Lookup(names, r)) == Lookup(names, r) by {
        assert Lookup(names, r)[1..] == [];
      }
      if dup != [] {
        assert dup[1..] == [];
      }
      assert Dedup(active) == [r] + Dedup(later);
      assert ([r] + Dedup(later))[1..] == Dedup(later);
    }
  }

  /** As intended, request `x` is warned about as a duplicate exactly when it is requested more than once. */
  lemma {:induction false} ProcessIntendedWarningFor(names: seq<string>, active: seq<Request>, x: Request)
    ensures DuplicateRequest(x) in ProcessIntended(names, active) <==> multiset(active)[x] >= 2
    decreases |active|
  {
    if active != [] {
      var r := active[0];
      var later := Without(active[1..], r);
      WithoutMultiset(active[1..], r);
      ProcessIntendedWarningFor(names, later, x);
      assert active == [r] + active[1..];
      var dup := if |later| < |active| - 1 then [DuplicateRequest(r)] else [];
      var look := Lookup(names, r);
      assert ProcessIntended(names, active) == dup + look + ProcessIntended(names, later);
      assert look == [look[0]] && !look[0].DuplicateRequest?;
      assert multiset(active)[x] == multiset([r])[x] + multiset(active[1..])[x];
      assert DuplicateRequest(x) in dup <==> x == r && multiset(active[1..])[r] >= 1;
      if x == r {
        assert multiset(later)[x] == 0;
      } else {
        assert multiset(later)[x] == multiset(active)[x];
      }
    }
  }

  /** As intended, a request is warned about as a duplicate exactly when it is requested more than once. */
  lemma ProcessIntendedWarnings(names: seq<string>, active: seq<Request>)
    ensures forall x :: DuplicateRequest(x) in ProcessIntended(names, active) <==> multiset(active)[x] >= 2
  {
    forall x ensures DuplicateRequest(x) in ProcessIntended(names, active) <==> multiset(active)[x] >= 2 {
      ProcessIntendedWarningFor(names, active, x);
    }
  }

  /** As intended, three identical requests add the module once. */
  lemma ThreeIdenticalIntended(r: Request)
    ensures Dedup([r, r, r]) == [r]
    ensures ProcessIntended([r.moduleName], [r, r, r]) == [DuplicateRequest(r), AddModule(0, r.instanceName)]
  {
    assert [r, r, r][1..] == [r, r];
    assert Without([r, r], r) == [];
  }

  // ---- the instantiator ----

  /** The names of the registered modules, `modules[j]->getName()`. */
  function NamesOf(ms: seq<Modules.ModuleImplementation>): (names: seq<string>)
    ensures |names| == |ms| && forall k :: 0 <= k < |ms| ==> names[k] == ms[k].name
  {
    seq(|ms|, k requires 0 <= k < |ms| => ms[k].name)
  }

  /** The instance name module `k` ends with: the last one an `addModule` of it used, else `init`. */
  function InstanceAfter(acts: seq<Action>, k: nat, init: string): string
    decreases |acts|
  {
    if acts == [] then init
    else
      var last := acts[|acts| - 1];
      if last.AddModule? && last.index == k then last.instanceName else InstanceAfter(acts[..|acts| - 1], k, init)
  }

  /** The instance names after `acts + more` are those after `more`, starting from those after `acts`. */
  lemma {:induction false} InstanceAfterAppend(acts: seq<Action>, more: seq<Action>, k: nat, init: string)
    ensures InstanceAfter(acts + more, k, init) == InstanceAfter(more, k, InstanceAfter(acts, k, init))
    decreases |more|
  {
    if more == [] {
      assert acts + more == acts;
    } else {
      var front := more[..|more| - 1];
      assert (acts + more)[..|acts + more| - 1] == acts + front;
      assert (acts + more)[|acts + more| - 1] == more[|more| - 1];
      InstanceAfterAppend(acts, front, k, init);
    }
  }

  lemma AppendAssociates(a: seq<Action>, b: seq<Action>, c: seq<Action>)
    ensures (a + b) + c == a + (b + c)
  {
  }

  class ModuleInstantiator {
    var modules: seq<Modules.ModuleImplementation>
    var trace: seq<Action>

    /** The instantiator owns and deletes each module, so the entries are distinct objects. */
    predicate Valid()
      reads this
    {
      forall p, q :: 0 <= p < q < |modules| ==> modules[p] != modules[q]
    }

    /** `ModuleInstantiator(controller)`: no module is registered. */
    constructor()
      ensures modules == [] && trace == [] && Valid()
    {
      modules := [];
      trace := [];
    }

    /** An instantiator with `modules` registered, as the constructor body is meant to add them. */
    constructor WithModules(modules: seq<Modules.ModuleImplementation>)
      requires forall p, q :: 0 <= p < q < |modules| ==> modules[p] != modules[q]
      ensures this.modules == modules && trace == [] && Valid()
    {
      this.modules := modules;
      trace := [];
    }

    /** The inner loop of `checkModuleDuplicates()` for module `i`: one warning per module of the same name. */
    method CheckRow(i: nat)
      requires i < |modules|
      modifies this
      ensures modules == old(modules)
      ensures trace == old(trace) + RowWarnings(NamesOf(modules), i, 0, |modules|)
    {
      ghost var names := NamesOf(modules);
      var j := 0;
      while j < |modules|
        invariant 0 <= j <= |modules| && modules == old(modules)
        invariant trace == old(trace) + RowWarnings(names, i, 0, j)
      {
        ghost var row := RowWarnings(names, i, 0, j);
        if modules[i].name == modules[j].name {
          trace := trace + [SeveralModules(modules[i].name)];
          assert RowWarnings(names, i, 0, j + 1) == row + [SeveralModules(names[i])];
        } else {
          assert RowWarnings(names, i, 0, j + 1) == row;
        }
        j := j + 1;
      }
    }

    /** `checkModuleDuplicates()`: both loops run over all modules. */
    method CheckModuleDuplicates()
      modifies this
      ensures modules == old(modules)
      ensures trace == old(trace) + DuplicateNameWarnings(NamesOf(modules), |modules|)
    {
      ghost var names := NamesOf(modules);
      var i := 0;
      while i < |modules|
        invariant 0 <= i <= |modules| && modules == old(modules)
        invariant trace == old(trace) + DuplicateNameWarnings(names, i)
      {
        CheckRow(i);
        AppendAssociates(old(trace), DuplicateNameWarnings(names, i), RowWarnings(names, i, 0, |names|));
        i := i + 1;
      }
    }

    /**
     * The inner loop of `instantiate` for position `i`: erase the later requests equal to
     * `activeRequests[i]`, warning once, in the words of `requests[i]`, when there is one.
     */
    method EraseDuplicates(requests: seq<Request>, active: seq<Request>, i: nat)
      returns (activeRequests: seq<Request>, duplicatesFound: bool)
      requires i < |active| <= |requests|
      modifies this
      ensures (activeRequests, duplicatesFound) == EraseScan(active, i, i + 1, false)
      ensures modules == old(modules)
      ensures trace == old(trace) + (if duplicatesFound then [DuplicateRequest(requests[i])] else [])
    {
      activeRequests := active;
      duplicatesFound := false;
      var j := i + 1;
      while j < |activeRequests|
        invariant modules == old(modules)
        invariant i < j && i < |activeRequests| <= |active|
        invariant EraseScan(active, i, i + 1, false) == EraseScan(activeRequests, i, j, duplicatesFound)
        invariant trace == old(trace) + (if duplicatesFound then [DuplicateRequest(requests[i])] else [])
        decreases |activeRequests| - j
      {
        if activeRequests[i] == activeRequests[j] {
          if !duplicatesFound {
            trace := trace + [DuplicateRequest(requests[i])];
          }
          duplicatesFound := true;
          activeRequests := activeRequests[..j] + activeRequests[j + 1..];
        }
        j := j + 1;
      }
    }

    /**
     * The lookup of `instantiate` for one request: the first module with the requested name
     * gets the instance name and is added, or the request is warned about.
     */
    method LookupModule(request: Request)
      requires Valid()
      modifies this, modules
      ensures modules == old(modules)
      ensures trace == old(trace) + Lookup(NamesOf(modules), request)
      ensures forall q :: 0 <= q < |modules| ==>
        modules[q].instanceName == InstanceAfter(Lookup(NamesOf(modules), request), q, old(modules[q].instanceName))
    {
      ghost var names := NamesOf(modules);
      var moduleName := request.moduleName;
      var foundModule := false;
      var k := 0;
      while k < |modules|
        invariant 0 <= k <= |modules| && !foundModule
        invariant modules == old(modules) && trace == old(trace)
        invariant forall q :: 0 <= q < k ==> names[q] != moduleName
        invariant forall q :: 0 <= q < |modules| ==> modules[q].instanceName == old(modules[q].instanceName)
      {
        if moduleName == modules[k].name {
          modules[k].SetInstanceName(request.instanceName);
          trace := trace + [AddModule(k, request.instanceName)];
          foundModule := true;
          break;
        }
        k := k + 1;
      }
      if !foundModule {
        trace := trace + [NotRegistered(moduleName)];
      }
    }

    /** One outer iteration of `instantiate`: the erasures and their warning, then the lookup. */
    method ProcessPosition(requests: seq<Request>, active: seq<Request>, i: nat) returns (activeRequests: seq<Request>)
      requires Valid() && i < |active| <= |requests|
      modifies this, modules
      ensures modules == old(modules)
      ensures activeRequests == Step(requests, NamesOf(modules), active, i).1
      ensures trace == old(trace) + Step(requests, NamesOf(modules), active, i).0
      ensures forall q :: 0 <= q < |modules| ==>
        modules[q].instanceName == InstanceAfter(Step(requests, NamesOf(modules), active, i).0, q, old(modules[q].instanceName))
    {
      var duplicatesFound;
      activeRequests, duplicatesFound := EraseDuplicates(requests, active, i);
      ghost var dup := if duplicatesFound then [DuplicateRequest(requests[i])] else [];
      LookupModule(activeRequests[i]);
      ghost var found := Lookup(NamesOf(modules), activeRequests[i]);
      AppendAssociates(old(trace), dup, found);
      forall q | 0 <= q < |modules|
        ensures modules[q].instanceName == InstanceAfter(dup + found, q, old(modules[q].instanceName))
      {
        InstanceAfterAppend(dup, found, q, old(modules[q].instanceName));
        if dup != [] {
          assert dup[..0] == [];
        }
      }
    }

    /**
     * The outer loop of `instantiate`: process a copy of the requests in order, erasing the
     * later duplicates of each one and looking it up.
     */
    method ProcessRequests(requests: seq<Request>)
      requires Valid()
      modifies this, modules
      ensures modules == old(modules)
      ensures trace == old(trace) + Process(requests, NamesOf(modules), requests, 0)
      ensures forall k :: 0 <= k < |modules| ==>
        modules[k].instanceName == InstanceAfter(Process(requests, NamesOf(modules), requests, 0), k, old(modules[k].instanceName))
    {
      ghost var names := NamesOf(modules);
      ghost var ms := modules;
      ghost var init := seq(|ms|, k requires 0 <= k < |ms| reads ms => ms[k].instanceName);
      ghost var added: seq<Action> := [];
      var activeRequests := requests;
      var i := 0;
      while i < |activeRequests|
        invariant modules == old(modules) && Valid()
        invariant 0 <= i <= |activeRequests| <= |requests|
        invariant trace == old(trace) + added
        invariant added + Process(requests, names, activeRequests, i) == Process(requests, names, requests, 0)
        invariant forall k :: 0 <= k < |modules| ==> modules[k].instanceName == InstanceAfter(added, k, init[k])
        decreases |activeRequests| - i
      {
        ghost var addedBefore := added;
        ghost var step := Step(requests, names, activeRequests, i).0;
        activeRequests := ProcessPosition(requests, activeRequests, i);
        added := added + step;
        AppendAssociates(old(trace), addedBefore, step);
        forall q | 0 <= q < |modules|
          ensures InstanceAfter(added, q, init[q]) == InstanceAfter(step, q, InstanceAfter(addedBefore, q, init[q]))
        {
          InstanceAfterAppend(addedBefore, step, q, init[q]);
        }
        AppendAssociates(addedBefore, step, Process(requests, names, activeRequests, i + 1));
        i := i + 1;
      }
      assert added == Process(requests, names, requests, 0);
    }

    /**
     * `instantiate(requests)`: check the registered names, then process a copy of the
     * requests in order. Each module added gets the request's instance name first; a module
     * added by several requests keeps the last one.
     */
    method Instantiate(requests: seq<Request>)
      requires Valid()
      modifies this, modules
      ensures modules == old(modules)
      ensures trace == old(trace) + DuplicateNameWarnings(NamesOf(modules), |modules|)
                       + Process(requests, NamesOf(modules), requests, 0)
      ensures forall k :: 0 <= k < |modules| ==>
        modules[k].instanceName == InstanceAfter(Process(requests, NamesOf(modules), requests, 0), k, old(modules[k].instanceName))
    {
      CheckModuleDuplicates();
      ProcessRequests(requests);
    }
  }
}
