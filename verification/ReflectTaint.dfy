/** The reflect-value taint of the architecture tests (internal/archtest/closure_reflect_scan.go):
    names bound to reflect.ValueOf, and names that copy one, to a fixpoint. */
module ReflectTaint {
  import opened Basics

  datatype Expr =
    | Ident(name: string)
    | Paren(inner: Expr)
    | Call(fun: Expr)
    | Selector(x: Expr, sel: string)
    | Other

  /** An assignment, or a var spec whose left-hand side is its names; a function's assignments come
      first. */
  datatype Binding = Binding(lhs: seq<Expr>, rhs: seq<Expr>)

  function Unparen(e: Expr): Expr {
    match e
    case Paren(inner) => Unparen(inner)
    case _ => e
  }

  predicate IsValueOfCall(e: Expr, reflectNames: set<string>) {
    var call := Unparen(e);
    call.Call? && var sel := Unparen(call.fun);
    sel.Selector? && var id := Unparen(sel.x);
    id.Ident? && id.name in reflectNames && sel.sel == "ValueOf"
  }

  // ----- Specification -----

  /** A name the binding assigns. */
  predicate Binds(b: Binding, x: string) {
    Ident(x) in b.lhs && x != "_"
  }

  /** The binding copies the value of `y`. */
  predicate Copies(b: Binding, y: string) {
    exists k :: 0 <= k < |b.rhs| && Unparen(b.rhs[k]) == Ident(y)
  }

  predicate BindsValue(b: Binding, reflectNames: set<string>) {
    exists k :: 0 <= k < |b.rhs| && IsValueOfCall(b.rhs[k], reflectNames)
  }

  predicate Seed(bs: seq<Binding>, reflectNames: set<string>, x: string) {
    exists i :: 0 <= i < |bs| && BindsValue(bs[i], reflectNames) && Binds(bs[i], x)
  }

  predicate CopyStep(bs: seq<Binding>, y: string, x: string) {
    exists i :: 0 <= i < |bs| && Copies(bs[i], y) && Binds(bs[i], x)
  }

  /** A chain of copies from a name bound to reflect.ValueOf. */
  predicate Chain(bs: seq<Binding>, reflectNames: set<string>, chain: seq<string>) {
    chain != [] && Seed(bs, reflectNames, chain[0]) &&
    forall k :: 0 < k < |chain| ==> CopyStep(bs, chain[k - 1], chain[k])
  }

  ghost predicate Tainted(bs: seq<Binding>, reflectNames: set<string>, x: string) {
    exists chain :: Chain(bs, reflectNames, chain) && chain[|chain| - 1] == x
  }

  predicate ClosedUnder(b: Binding, vars: set<string>) {
    (exists y :: y in vars && Copies(b, y)) ==> forall x :: x in NamesOf(b) ==> x in vars
  }

  predicate Closed(bs: seq<Binding>, vars: set<string>) {
    forall i :: 0 <= i < |bs| ==> ClosedUnder(bs[i], vars)
  }

  /** The tainted names are in every set that has the seeds and is closed under copies. */
  lemma {:induction false} TaintIsLeast(bs: seq<Binding>, reflectNames: set<string>, chain: seq<string>,
                                        vars: set<string>)
    requires Chain(bs, reflectNames, chain) && Closed(bs, vars)
    requires forall x :: Seed(bs, reflectNames, x) ==> x in vars
    ensures chain[|chain| - 1] in vars
    decreases |chain|
  {
    if |chain| > 1 {
      var n := |chain| - 1;
      TaintIsLeast(bs, reflectNames, chain[..n], vars);
      assert CopyStep(bs, chain[n - 1], chain[n]);
      var i :| 0 <= i < |bs| && Copies(bs[i], chain[n - 1]) && Binds(bs[i], chain[n]);
      assert ClosedUnder(bs[i], vars) && chain[n] in NamesOf(bs[i]);
    }
  }

  lemma SeedTainted(bs: seq<Binding>, reflectNames: set<string>, x: string)
    requires Seed(bs, reflectNames, x)
    ensures Tainted(bs, reflectNames, x)
  {
    assert Chain(bs, reflectNames, [x]);
  }

  lemma CopyTainted(bs: seq<Binding>, reflectNames: set<string>, y: string, x: string)
    requires Tainted(bs, reflectNames, y) && CopyStep(bs, y, x)
    ensures Tainted(bs, reflectNames, x)
  {
    var chain :| Chain(bs, reflectNames, chain) && chain[|chain| - 1] == y;
    assert Chain(bs, reflectNames, chain + [x]);
    assert (chain + [x])[|chain|] == x;
  }

  lemma NamesTainted(bs: seq<Binding>, reflectNames: set<string>, vars: set<string>, i: nat)
    requires i < |bs| && (forall x :: x in vars ==> Tainted(bs, reflectNames, x))
    requires exists y :: y in vars && Copies(bs[i], y)
    ensures forall x :: x in NamesOf(bs[i]) ==> Tainted(bs, reflectNames, x)
  {
    forall x | x in NamesOf(bs[i]) ensures Tainted(bs, reflectNames, x) {
      var y :| y in vars && Copies(bs[i], y);
      assert CopyStep(bs, y, x);
      CopyTainted(bs, reflectNames, y, x);
    }
  }

  // ----- The collector -----

  function NamesOf(b: Binding): (names: set<string>)
    ensures forall x :: x in names <==> Binds(b, x)
  {
    set k | 0 <= k < |b.lhs| && b.lhs[k].Ident? && b.lhs[k].name != "_" :: b.lhs[k].name
  }

  function AllNames(bs: seq<Binding>): (names: set<string>)
    ensures forall i :: 0 <= i < |bs| ==> NamesOf(bs[i]) <= names
  {
    if bs == [] then {} else AllNames(bs[..|bs| - 1]) + NamesOf(bs[|bs| - 1])
  }

  /** Adds every name a binding assigns. */
  method MarkNames(b: Binding, vars: set<string>) returns (out: set<string>, changed: bool)
    ensures out == vars + NamesOf(b) && (changed <==> out != vars)
  {
    out, changed := vars, false;
    for k := 0 to |b.lhs|
      invariant out == vars + set j | 0 <= j < k && b.lhs[j].Ident? && b.lhs[j].name != "_" :: b.lhs[j].name
      invariant changed <==> out != vars
    {
      var e := b.lhs[k];
      if e.Ident? && e.name != "_" && e.name !in out {
        out := out + {e.name};
        changed := true;
      }
    }
  }

  /** assignCopiesValueVar, specCopiesValueVar. */
  method CopiesValueVar(b: Binding, vars: set<string>) returns (copies: bool)
    ensures copies <==> exists y :: y in vars && Copies(b, y)
  {
    for k := 0 to |b.rhs|
      invariant forall j :: 0 <= j < k ==> !(Unparen(b.rhs[j]).Ident? && Unparen(b.rhs[j]).name in vars)
    {
      var e := Unparen(b.rhs[k]);
      if e.Ident? && e.name in vars {
        assert Copies(b, e.name);
        return true;
      }
    }
    return false;
  }

  /** The names bound to reflect.ValueOf. */
  method CollectSeeds(bs: seq<Binding>, reflectNames: set<string>) returns (vars: set<string>)
    ensures forall x :: x in vars <==> Seed(bs, reflectNames, x)
    ensures vars <= AllNames(bs)
  {
    vars := {};
    for i := 0 to |bs|
      invariant forall x :: x in vars <==> exists j :: 0 <= j < i && BindsValue(bs[j], reflectNames) && Binds(bs[j], x)
    {
      var found := false;
      for k := 0 to |bs[i].rhs|
        invariant found <==> exists j :: 0 <= j < k && IsValueOfCall(bs[i].rhs[j], reflectNames)
      {
        if IsValueOfCall(bs[i].rhs[k], reflectNames) { found := true; }
      }
      if found {
        var more;
        vars, more := MarkNames(bs[i], vars);
      }
    }
  }

  ghost predicate AllTainted(bs: seq<Binding>, reflectNames: set<string>, vars: set<string>) {
    vars <= AllNames(bs) && forall x :: x in vars ==> Tainted(bs, reflectNames, x)
  }

  /** One binding: its names are marked if it copies a marked one. */
  method Visit(bs: seq<Binding>, reflectNames: set<string>, i: nat, vars: set<string>)
    returns (out: set<string>, changed: bool)
    requires i < |bs| && AllTainted(bs, reflectNames, vars)
    ensures vars <= out && AllTainted(bs, reflectNames, out) && (changed <==> out != vars)
    ensures !changed ==> ClosedUnder(bs[i], vars)
  {
    var copies := CopiesValueVar(bs[i], vars);
    if !copies {
      return vars, false;
    }
    NamesTainted(bs, reflectNames, vars, i);
    out, changed := MarkNames(bs[i], vars);
  }

  /** One round over the bindings. */
  method Propagate(bs: seq<Binding>, reflectNames: set<string>, vars: set<string>)
    returns (out: set<string>, changed: bool)
    requires AllTainted(bs, reflectNames, vars)
    ensures vars <= out && AllTainted(bs, reflectNames, out) && (changed <==> out != vars)
    ensures !changed ==> Closed(bs, vars)
  {
    out, changed := vars, false;
    for i := 0 to |bs|
      invariant vars <= out && AllTainted(bs, reflectNames, out) && (changed <==> out != vars)
      invariant !changed ==> forall j :: 0 <= j < i ==> ClosedUnder(bs[j], vars)
    {
      var more;
      out, more := Visit(bs, reflectNames, i, out);
      changed := changed || more;
    }
  }

  /** collectValueVars: exactly the names a chain of copies leads to from reflect.ValueOf. */
  method CollectValueVars(bs: seq<Binding>, reflectNames: set<string>) returns (vars: set<string>)
    ensures forall x :: x in vars <==> Tainted(bs, reflectNames, x)
    ensures Closed(bs, vars)
  {
    vars := CollectSeeds(bs, reflectNames);
    forall x | x in vars ensures Tainted(bs, reflectNames, x) { SeedTainted(bs, reflectNames, x); }
    var changed := true;
    while changed
      invariant AllTainted(bs, reflectNames, vars)
      invariant forall x :: Seed(bs, reflectNames, x) ==> x in vars
      invariant !changed ==> Closed(bs, vars)
      decreases |AllNames(bs) - vars|, changed
    {
      ghost var before := vars;
      vars, changed := Propagate(bs, reflectNames, vars);
      if changed { Shrinks(AllNames(bs), before, vars); }
    }
    forall x | Tainted(bs, reflectNames, x) ensures x in vars {
      var chain :| Chain(bs, reflectNames, chain) && chain[|chain| - 1] == x;
      TaintIsLeast(bs, reflectNames, chain, vars);
    }
  }

  lemma Shrinks(all: set<string>, before: set<string>, after: set<string>)
    requires before <= after <= all && before != after
    ensures |all - after| < |all - before|
  {
    var x :| x in after && x !in before;
    assert all - after <= all - before - {x};
    SubsetSize(all - after, all - before - {x});
  }
}
