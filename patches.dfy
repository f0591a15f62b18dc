/**
 * The patch assembler: an update's intents become at most one patch per
 * category, in the order remove keys, remove services, add services, add keys.
 */
module Patches {
  import opened Wrappers
  import opened Types
  import opened Traversal

  /** The fixed order in which the categories are assembled. */
  const PatchOrder: seq<PatchAction> := [RemovePublicKeys, RemoveServices, AddServices, AddPublicKeys]

  /** Position of a category in the fixed order. */
  function Rank(a: PatchAction): nat
  {
    match a
    case RemovePublicKeys => 0
    case RemoveServices => 1
    case AddServices => 2
    case AddPublicKeys => 3
  }

  /** A category is requested when its input collection is non-empty. */
  predicate Requested(opts: UpdateOpts, a: PatchAction)
  {
    match a
    case RemovePublicKeys => |opts.removePublicKeys| != 0
    case RemoveServices => |opts.removeServices| != 0
    case AddServices => |opts.addServices| != 0
    case AddPublicKeys => |opts.addPublicKeys| != 0
  }

  /** How many categories are requested. */
  function RequestedCount(opts: UpdateOpts): nat
  {
    (if |opts.removePublicKeys| != 0 then 1 else 0) + (if |opts.removeServices| != 0 then 1 else 0) +
    (if |opts.addServices| != 0 then 1 else 0) + (if |opts.addPublicKeys| != 0 then 1 else 0)
  }

  /** The requested categories among `order`, keeping their order. */
  function Filter(opts: UpdateOpts, order: seq<PatchAction>): seq<PatchAction>
    decreases |order|
  {
    if order == [] then []
    else
      var a := order[|order| - 1];
      Filter(opts, order[..|order| - 1]) + (if Requested(opts, a) then [a] else [])
  }

  lemma {:induction false} FilterProperties(opts: UpdateOpts, order: seq<PatchAction>)
    requires forall i, j :: 0 <= i < j < |order| ==> Rank(order[i]) < Rank(order[j])
    ensures forall a :: a in Filter(opts, order) <==> a in order && Requested(opts, a)
    ensures forall i, j :: 0 <= i < j < |Filter(opts, order)| ==>
      Rank(Filter(opts, order)[i]) < Rank(Filter(opts, order)[j])
    decreases |order|
  {
    if order != [] {
      var n := |order| - 1;
      var a := order[n];
      FilterProperties(opts, order[..n]);
      var prev := Filter(opts, order[..n]);
      assert order == order[..n] + [a];
      forall i | 0 <= i < |prev| ensures Rank(prev[i]) < Rank(a) {
        assert prev[i] in prev;
        var k :| 0 <= k < n && order[..n][k] == prev[i];
      }
    }
  }

  /** The categories to assemble for these options. */
  function RequestedCategories(opts: UpdateOpts): seq<PatchAction>
  {
    Filter(opts, PatchOrder)
  }

  /** One category, if requested. */
  function IfRequested(opts: UpdateOpts, a: PatchAction): seq<PatchAction>
  {
    if Requested(opts, a) then [a] else []
  }

  lemma RequestedCategoriesUnfold(opts: UpdateOpts)
    ensures RequestedCategories(opts) ==
      IfRequested(opts, RemovePublicKeys) + IfRequested(opts, RemoveServices) +
      IfRequested(opts, AddServices) + IfRequested(opts, AddPublicKeys)
  {
    var o := PatchOrder;
    assert o[..3][..2] == o[..2] && o[..2][..1] == o[..1] && o[..1][..0] == [];
    assert Filter(opts, o[..1]) == IfRequested(opts, RemovePublicKeys);
    assert Filter(opts, o[..2]) == Filter(opts, o[..1]) + IfRequested(opts, RemoveServices);
    assert Filter(opts, o[..3]) == Filter(opts, o[..2]) + IfRequested(opts, AddServices);
    assert Filter(opts, o) == Filter(opts, o[..3]) + IfRequested(opts, AddPublicKeys);
  }

  /**
   * Exactly the requested categories, each once, in the fixed order; as many
   * as there are non-empty inputs; none when every input is empty.
   */
  lemma RequestedCategoriesOrder(opts: UpdateOpts)
    ensures forall a :: a in RequestedCategories(opts) <==> Requested(opts, a)
    ensures forall i, j :: 0 <= i < j < |RequestedCategories(opts)| ==>
      Rank(RequestedCategories(opts)[i]) < Rank(RequestedCategories(opts)[j])
    ensures |RequestedCategories(opts)| == RequestedCount(opts)
  {
    FilterProperties(opts, PatchOrder);
    RequestedCategoriesUnfold(opts);
    forall a ensures a in PatchOrder {
      assert PatchOrder[Rank(a)] == a;
    }
  }

  function CreateRemovePublicKeysPatch(lib: PatchLibrary, opts: UpdateOpts): (r: Result<Patch>)
    ensures r.Ok? ==> r.value.action == RemovePublicKeys
    ensures r.Ok? <==>
      lib.marshalIDs(opts.removePublicKeys).Ok? &&
      lib.newPatch(RemovePublicKeys, lib.marshalIDs(opts.removePublicKeys).value).Ok?
  {
    var payload :- lib.marshalIDs(opts.removePublicKeys);
    var body :- lib.newPatch(RemovePublicKeys, payload);
    Ok(Patch(RemovePublicKeys, body))
  }

  function CreateRemoveServicesPatch(lib: PatchLibrary, opts: UpdateOpts): (r: Result<Patch>)
    ensures r.Ok? ==> r.value.action == RemoveServices
    ensures r.Ok? <==>
      lib.marshalIDs(opts.removeServices).Ok? &&
      lib.newPatch(RemoveServices, lib.marshalIDs(opts.removeServices).value).Ok?
  {
    var payload :- lib.marshalIDs(opts.removeServices);
    var body :- lib.newPatch(RemoveServices, payload);
    Ok(Patch(RemoveServices, body))
  }

  function CreateAddServicesPatch(lib: PatchLibrary, opts: UpdateOpts): (r: Result<Patch>)
    ensures r.Ok? ==> r.value.action == AddServices
    ensures r.Ok? <==>
      lib.marshalServices(opts.addServices).Ok? &&
      lib.newPatch(AddServices, lib.marshalServices(opts.addServices).value).Ok?
  {
    var payload :- lib.marshalServices(opts.addServices);
    var body :- lib.newPatch(AddServices, payload);
    Ok(Patch(AddServices, body))
  }

  function CreateAddPublicKeysPatch(lib: PatchLibrary, opts: UpdateOpts): (r: Result<Patch>)
    ensures r.Ok? ==> r.value.action == AddPublicKeys
    ensures r.Ok? <==>
      lib.marshalPublicKeys(opts.addPublicKeys).Ok? &&
      lib.newPatch(AddPublicKeys, lib.marshalPublicKeys(opts.addPublicKeys).value).Ok?
  {
    var payload :- lib.marshalPublicKeys(opts.addPublicKeys);
    var body :- lib.newPatch(AddPublicKeys, payload);
    Ok(Patch(AddPublicKeys, body))
  }

  /** The patch for one category. */
  function CreatePatch(lib: PatchLibrary, opts: UpdateOpts, a: PatchAction): (r: Result<Patch>)
    ensures r.Ok? ==> r.value.action == a
  {
    match a
    case RemovePublicKeys => CreateRemovePublicKeysPatch(lib, opts)
    case RemoveServices => CreateRemoveServicesPatch(lib, opts)
    case AddServices => CreateAddServicesPatch(lib, opts)
    case AddPublicKeys => CreateAddPublicKeysPatch(lib, opts)
  }

  /** The patch constructor as a step of a traversal. */
  function PatchStep(lib: PatchLibrary, opts: UpdateOpts): PatchAction -> Result<Patch>
  {
    a => CreatePatch(lib, opts, a)
  }

  /** The patches of an update: one per requested category, stopping at the first category that fails. */
  function UpdatePatches(lib: PatchLibrary, opts: UpdateOpts): Result<seq<Patch>>
  {
    Traverse(PatchStep(lib, opts), RequestedCategories(opts))
  }

  /**
   * On success there is exactly one patch per requested category, built by
   * that category's constructor, in the fixed order; success means every
   * requested category's construction succeeded.
   */
  lemma UpdatePatchesShape(lib: PatchLibrary, opts: UpdateOpts)
    ensures UpdatePatches(lib, opts).Ok? <==>
      forall a :: Requested(opts, a) ==> CreatePatch(lib, opts, a).Ok?
    ensures UpdatePatches(lib, opts).Ok? ==>
      var patches := UpdatePatches(lib, opts).value;
      && |patches| == RequestedCount(opts)
      && (forall a :: Requested(opts, a) <==> exists i :: 0 <= i < |patches| && patches[i].action == a)
      && (forall i :: 0 <= i < |patches| ==> patches[i] == CreatePatch(lib, opts, patches[i].action).value)
      && (forall i, j :: 0 <= i < j < |patches| ==> Rank(patches[i].action) < Rank(patches[j].action))
  {
    var cats := RequestedCategories(opts);
    var f := PatchStep(lib, opts);
    RequestedCategoriesOrder(opts);
    TraverseOk(f, cats);
    if UpdatePatches(lib, opts).Ok? {
      var patches := UpdatePatches(lib, opts).value;
      assert forall i :: 0 <= i < |patches| ==> patches[i].action == cats[i];
      forall a | Requested(opts, a) ensures exists i :: 0 <= i < |patches| && patches[i].action == a {
        var i :| 0 <= i < |cats| && cats[i] == a;
        assert patches[i].action == a;
      }
    } else {
      var i :| 0 <= i < |cats| && f(cats[i]).Err?;
      assert Requested(opts, cats[i]);
    }
  }

  /** With every input empty there are no patches and no error. */
  lemma NoPatchesWhenNothingRequested(lib: PatchLibrary, opts: UpdateOpts)
    requires RequestedCount(opts) == 0
    ensures UpdatePatches(lib, opts) == Ok([])
  {
    RequestedCategoriesOrder(opts);
  }

  /**
   * If a requested category's construction fails and every requested
   * category before it succeeded, that failure is the assembler's result.
   */
  lemma UpdatePatchesFirstError(lib: PatchLibrary, opts: UpdateOpts, a: PatchAction)
    requires Requested(opts, a) && CreatePatch(lib, opts, a).Err?
    requires forall b :: Requested(opts, b) && Rank(b) < Rank(a) ==> CreatePatch(lib, opts, b).Ok?
    ensures UpdatePatches(lib, opts) == Err(CreatePatch(lib, opts, a).error)
  {
    var cats := RequestedCategories(opts);
    RequestedCategoriesOrder(opts);
    var k :| 0 <= k < |cats| && cats[k] == a;
    forall j | 0 <= j < k ensures CreatePatch(lib, opts, cats[j]).Ok? {
      assert Requested(opts, cats[j]);
    }
    TraverseFirstError(PatchStep(lib, opts), cats, k);
  }

  /** Filtering a split order is filtering each part. */
  lemma {:induction false} FilterSplit(opts: UpdateOpts, order: seq<PatchAction>, k: nat)
    requires k <= |order|
    ensures Filter(opts, order) == Filter(opts, order[..k]) + Filter(opts, order[k..])
    decreases |order|
  {
    if k == |order| {
      assert order[..k] == order;
      assert order[k..] == [];
    } else {
      var n := |order| - 1;
      FilterSplit(opts, order[..n], k);
      assert order[..n][..k] == order[..k];
      assert order[..n][k..] == order[k..][..|order[k..]| - 1];
    }
  }

  /** The patches of the categories before position k of the fixed order. */
  function Assembled(lib: PatchLibrary, opts: UpdateOpts, k: nat): Result<seq<Patch>>
    requires k <= |PatchOrder|
  {
    Traverse(PatchStep(lib, opts), Filter(opts, PatchOrder[..k]))
  }

  /**
   * One step of the assembler: given the patches of the categories before
   * position k, the category at k either fails the whole assembly with its
   * error, adds its patch, or is skipped.
   */
  lemma AssembleStage(lib: PatchLibrary, opts: UpdateOpts, k: nat, patches: seq<Patch>)
    requires k < |PatchOrder|
    requires Assembled(lib, opts, k) == Ok(patches)
    ensures
      var a := PatchOrder[k];
      var p := CreatePatch(lib, opts, a);
      var next := Assembled(lib, opts, k + 1);
      && (Requested(opts, a) && p.Err? ==> UpdatePatches(lib, opts) == Err(p.error))
      && (Requested(opts, a) && p.Ok? ==> next == Ok(patches + [p.value]))
      && (!Requested(opts, a) ==> next == Ok(patches))
  {
    var a := PatchOrder[k];
    var f := PatchStep(lib, opts);
    var done := Filter(opts, PatchOrder[..k]);
    assert PatchOrder[..k + 1][..k] == PatchOrder[..k];
    assert Filter(opts, PatchOrder[..k + 1]) == done + IfRequested(opts, a);
    if Requested(opts, a) {
      TraverseSnoc(f, done, a);
      if CreatePatch(lib, opts, a).Err? {
        FilterSplit(opts, PatchOrder, k + 1);
        TraverseErrExtends(f, done + [a], Filter(opts, PatchOrder[k + 1..]));
      }
    } else {
      assert done + IfRequested(opts, a) == done;
    }
  }

  /** The assembler as the source runs it: the categories in turn, each appended to the list. */
  method CreateUpdatePatches(lib: PatchLibrary, opts: UpdateOpts) returns (r: Result<seq<Patch>>)
    ensures r == UpdatePatches(lib, opts)
  {
    var patches: seq<Patch> := [];
    assert Assembled(lib, opts, 0) == Ok(patches) by {
      assert PatchOrder[..0] == [];
    }

    if |opts.removePublicKeys| != 0 {
      var p := CreateRemovePublicKeysPatch(lib, opts);
      if p.Err? {
        assert UpdatePatches(lib, opts) == Err(p.error) by {
          AssembleStage(lib, opts, 0, patches);
        }
        return Err(p.error);
      }
      assert Assembled(lib, opts, 1) == Ok(patches + [p.value]) by {
        AssembleStage(lib, opts, 0, patches);
      }
      patches := patches + [p.value];
    } else {
      assert Assembled(lib, opts, 1) == Ok(patches) by {
        AssembleStage(lib, opts, 0, patches);
      }
    }

    if |opts.removeServices| != 0 {
      var p := CreateRemoveServicesPatch(lib, opts);
      if p.Err? {
        assert UpdatePatches(lib, opts) == Err(p.error) by {
          AssembleStage(lib, opts, 1, patches);
        }
        return Err(p.error);
      }
      assert Assembled(lib, opts, 2) == Ok(patches + [p.value]) by {
        AssembleStage(lib, opts, 1, patches);
      }
      patches := patches + [p.value];
    } else {
      assert Assembled(lib, opts, 2) == Ok(patches) by {
        AssembleStage(lib, opts, 1, patches);
      }
    }

    if |opts.addServices| != 0 {
      var p := CreateAddServicesPatch(lib, opts);
      if p.Err? {
        assert UpdatePatches(lib, opts) == Err(p.error) by {
          AssembleStage(lib, opts, 2, patches);
        }
        return Err(p.error);
      }
      assert Assembled(lib, opts, 3) == Ok(patches + [p.value]) by {
        AssembleStage(lib, opts, 2, patches);
      }
      patches := patches + [p.value];
    } else {
      assert Assembled(lib, opts, 3) == Ok(patches) by {
        AssembleStage(lib, opts, 2, patches);
      }
    }

    if |opts.addPublicKeys| != 0 {
      var p := CreateAddPublicKeysPatch(lib, opts);
      if p.Err? {
        assert UpdatePatches(lib, opts) == Err(p.error) by {
          AssembleStage(lib, opts, 3, patches);
        }
        return Err(p.error);
      }
      assert Assembled(lib, opts, 4) == Ok(patches + [p.value]) by {
        AssembleStage(lib, opts, 3, patches);
      }
      patches := patches + [p.value];
    } else {
      assert Assembled(lib, opts, 4) == Ok(patches) by {
        AssembleStage(lib, opts, 3, patches);
      }
    }

    assert PatchOrder[..4] == PatchOrder;
    return Ok(patches);
  }
}
