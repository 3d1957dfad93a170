/** The ordering discipline of call arguments. `parse_call` admits each
    argument only after checking what has been collected so far; the
    declarative reading of those checks is that the arguments come as
    positional*, keyword*, at most one `*args`, at most one `**kwargs`. */
module CallOrder {
  import opened Nodes

  /** How an argument was written. */
  datatype ArgKind = Positional | KeywordArg | StarArgs | StarStarArgs

  /** Call arguments as parsed, with the kinds in the order they were written. */
  datatype ArgList = ArgList(args: Args, order: seq<ArgKind>)

  function OrderRank(k: ArgKind): nat
  {
    match k
    case Positional => 0
    case KeywordArg => 1
    case StarArgs => 2
    case StarStarArgs => 3
  }

  /** The accepted orders: ranks never decrease, and only positional and
      keyword arguments may repeat. */
  predicate ValidOrder(ks: seq<ArgKind>)
  {
    forall i, j :: 0 <= i < j < |ks| ==>
      && OrderRank(ks[i]) <= OrderRank(ks[j])
      && (OrderRank(ks[i]) == OrderRank(ks[j]) ==> OrderRank(ks[i]) <= 1)
  }

  /** The checks `parse_call` makes with `ensure(...)` before taking an
      argument of kind `k`, given the arguments collected in `a`. */
  predicate Admit(a: Args, k: ArgKind)
  {
    match k
    case StarArgs => a.dynArgs.None? && a.dynKwargs.None?
    case StarStarArgs => a.dynKwargs.None?
    case KeywordArg => a.dynArgs.None? && a.dynKwargs.None?
    case Positional => a.dynArgs.None? && a.dynKwargs.None? && |a.kwargs| == 0
  }

  /** Records argument `e` of kind `k` (named `key` if it is a keyword). */
  function AddArg(a: Args, k: ArgKind, key: string, e: Expr): (r: Args)
    ensures k == Positional ==> r == a.(args := a.args + [e])
    ensures k == KeywordArg ==> r == a.(kwargs := a.kwargs + [Keyword(key, e)])
    ensures k == StarArgs ==> r == a.(dynArgs := Some(e))
    ensures k == StarStarArgs ==> r == a.(dynKwargs := Some(e))
    ensures ArgsLoadOnly(a) && LoadOnly(e) ==> ArgsLoadOnly(r)
  {
    match k
    case Positional => Args(a.args + [e], a.kwargs, a.dynArgs, a.dynKwargs)
    case KeywordArg => Args(a.args, a.kwargs + [Keyword(key, e)], a.dynArgs, a.dynKwargs)
    case StarArgs =>
      assert LoadOnly(e) ==> OptCtxAll(Some(e), Load);
      Args(a.args, a.kwargs, Some(e), a.dynKwargs)
    case StarStarArgs =>
      assert LoadOnly(e) ==> OptCtxAll(Some(e), Load);
      Args(a.args, a.kwargs, a.dynArgs, Some(e))
  }

  /** `a` holds what the kinds in `ks` say it holds. */
  predicate Tracks(a: Args, ks: seq<ArgKind>)
  {
    && (|a.args| == 0 <==> Positional !in ks)
    && (|a.kwargs| == 0 <==> KeywordArg !in ks)
    && (a.dynArgs.Some? <==> StarArgs in ks)
    && (a.dynKwargs.Some? <==> StarStarArgs in ks)
  }

  /** The incremental checks decide exactly the declarative order: an
      argument is admitted if and only if the order stays valid with it. */
  lemma AdmitIsOrderCheck(a: Args, ks: seq<ArgKind>, k: ArgKind)
    requires ValidOrder(ks) && Tracks(a, ks)
    ensures Admit(a, k) <==> ValidOrder(ks + [k])
  {
    var ks' := ks + [k];
    assert forall i :: 0 <= i < |ks| ==> ks'[i] == ks[i];
    if Admit(a, k) {
      forall i, j | 0 <= i < j < |ks'|
        ensures OrderRank(ks'[i]) <= OrderRank(ks'[j])
        ensures OrderRank(ks'[i]) == OrderRank(ks'[j]) ==> OrderRank(ks'[i]) <= 1
      {
        if j == |ks| {
          assert ks[i] in ks;
        }
      }
    } else {
      var w: ArgKind :|
        w in ks && (match k
                    case StarArgs => w == StarArgs || w == StarStarArgs
                    case StarStarArgs => w == StarStarArgs
                    case KeywordArg => w == StarArgs || w == StarStarArgs
                    case Positional => w == StarArgs || w == StarStarArgs || w == KeywordArg);
      var i :| 0 <= i < |ks| && ks[i] == w;
      assert ks'[i] == w && ks'[|ks|] == k;
    }
  }

  /** Taking an admitted argument keeps the order valid and tracked. */
  lemma AddArgKeepsOrder(a: Args, ks: seq<ArgKind>, k: ArgKind, key: string, e: Expr)
    requires ValidOrder(ks) && Tracks(a, ks) && Admit(a, k)
    ensures ValidOrder(ks + [k]) && Tracks(AddArg(a, k, key, e), ks + [k])
  {
    AdmitIsOrderCheck(a, ks, k);
  }
}
