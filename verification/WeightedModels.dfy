/** Choosing a target model by weight. */
module WeightedModels {
  datatype TargetModel = TargetModel(modelRewrite: string, weight: int)

  const MAX_INT32 := 0x7FFF_FFFF

  function Total(models: seq<TargetModel>): int {
    if models == [] then 0 else Total(models[..|models| - 1]) + models[|models| - 1].weight
  }

  predicate NonNegative(models: seq<TargetModel>) {
    forall m :: m in models ==> m.weight >= 0
  }

  lemma {:induction false} TotalGrows(models: seq<TargetModel>, i: nat, j: nat)
    requires NonNegative(models) && i <= j <= |models|
    ensures 0 <= Total(models[..i]) <= Total(models[..j])
    decreases j
  {
    if j > 0 {
      assert models[..j][..j - 1] == models[..j - 1];
      if i < j {
        TotalGrows(models, i, j - 1);
      } else {
        TotalGrows(models, j - 1, j - 1);
      }
    }
  }

  /** The draw falls into the interval of target `i`. */
  predicate Falls(models: seq<TargetModel>, i: nat, draw: int) {
    i < |models| && Total(models[..i]) <= draw < Total(models[..i + 1])
  }

  /** The draws below the total that fall to target `i`. */
  ghost function Draws(models: seq<TargetModel>, i: nat): set<int> {
    set draw | 0 <= draw < Total(models) && Falls(models, i, draw)
  }

  ghost function Interval(lo: int, hi: int): (xs: set<int>)
    requires lo <= hi
    ensures |xs| == hi - lo && forall x :: x in xs <==> lo <= x < hi
    decreases hi - lo
  {
    if lo == hi then {} else Interval(lo, hi - 1) + {hi - 1}
  }

  /** Exactly as many draws fall to a target as its weight. */
  lemma DrawsAreWeights(models: seq<TargetModel>, i: nat)
    requires NonNegative(models) && i < |models|
    ensures |Draws(models, i)| == models[i].weight
  {
    var lo, hi := Total(models[..i]), Total(models[..i + 1]);
    TotalGrows(models, i, i + 1);
    TotalGrows(models, i + 1, |models|);
    assert models[..|models|] == models;
    assert models[..i + 1][..i] == models[..i];
    assert Draws(models, i) == Interval(lo, hi);
  }

  /** Every draw below the total falls to one target. */
  lemma {:induction false} DrawFallsSomewhere(models: seq<TargetModel>, k: nat, draw: int)
    requires k <= |models| && 0 <= draw < Total(models[..k])
    ensures exists i :: Falls(models, i, draw)
    decreases k
  {
    if k > 0 {
      assert models[..k][..k - 1] == models[..k - 1];
      if Total(models[..k - 1]) <= draw {
        assert Falls(models, k - 1, draw);
      } else {
        DrawFallsSomewhere(models, k - 1, draw);
      }
    }
  }

  lemma DrawFallsOnce(models: seq<TargetModel>, i: nat, j: nat, draw: int)
    requires NonNegative(models) && Falls(models, i, draw) && Falls(models, j, draw)
    ensures i == j
  {
    if i < j {
      TotalGrows(models, i + 1, j);
    } else if j < i {
      TotalGrows(models, j + 1, i);
    }
  }

  /** `draw` is the random number: below the total weight, or below the number of targets when the total is zero. */
  method SelectWeightedModel(models: seq<TargetModel>, draw: nat) returns (name: string)
    requires NonNegative(models) && Total(models) <= MAX_INT32
    requires models != [] ==> draw < if Total(models) == 0 then |models| else Total(models)
    ensures models == [] ==> name == ""
    ensures models != [] && Total(models) == 0 ==> name == models[draw].modelRewrite
    ensures Total(models) > 0 ==> exists i: nat :: Falls(models, i, draw) && name == models[i].modelRewrite
  {
    if |models| == 0 {
      return "";
    }
    var total := 0;
    for i := 0 to |models|
      invariant total == Total(models[..i])
    {
      total := total + models[i].weight;
      assert models[..i + 1][..i] == models[..i];
    }
    assert models[..|models|] == models;
    if total == 0 {
      return models[draw].modelRewrite;
    }
    TotalGrows(models, 0, |models|);
    var current := 0;
    for i := 0 to |models|
      invariant current == Total(models[..i]) <= draw
    {
      assert models[..i + 1][..i] == models[..i];
      current := current + models[i].weight;
      if draw < current {
        assert Falls(models, i, draw);
        return models[i].modelRewrite;
      }
    }
    assert false;
  }
}
