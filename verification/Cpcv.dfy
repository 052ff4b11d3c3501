/** Combinatorial purged cross-validation: futur3/cv/cpcv.py. */
module Cpcv {
  import opened Wrappers
  import opened Combinations

  /** A half-open run of observations. */
  datatype Block = Block(start: nat, end: nat) {
    predicate Has(i: int) {
      start <= i < end
    }
  }

  datatype Fold = Fold(number: nat, testBlocks: seq<nat>, train: seq<nat>, test: seq<nat>, purged: nat, embargoed: nat)

  datatype Error = TooFewBlocks | BadTestCount | NegativePurge | NegativeEmbargo | TooFewSamples

  const MIN_BLOCKS := 2

  // ---------------------------------------------------------------------------------------------
  // Blocks
  // ---------------------------------------------------------------------------------------------

  /** Block sizes differ by one at most, the larger first. */
  function SizeAt(size: nat, larger: nat, j: nat): nat {
    size + if j < larger then 1 else 0
  }

  function StartAt(size: nat, larger: nat, j: nat): nat {
    if j == 0 then 0 else StartAt(size, larger, j - 1) + SizeAt(size, larger, j - 1)
  }

  lemma {:induction false} StartIs(size: nat, larger: nat, j: nat)
    ensures StartAt(size, larger, j) == j * size + if j < larger then j else larger
  {
    if j > 0 {
      StartIs(size, larger, j - 1);
      assert j * size == (j - 1) * size + size;
    }
  }

  predicate Consecutive(blocks: seq<Block>, size: nat, larger: nat) {
    && (|blocks| > 0 ==> blocks[0].start == 0)
    && (forall j | 0 <= j < |blocks| - 1 :: blocks[j].end == blocks[j + 1].start)
    && forall j | 0 <= j < |blocks| :: blocks[j].end - blocks[j].start == SizeAt(size, larger, j)
  }

  /** The blocks meet end to end, cover every sample and have near-equal sizes. */
  predicate Tiles(blocks: seq<Block>, n: nat, k: nat)
    requires k > 0
  {
    |blocks| == k && blocks[k - 1].end == n && Consecutive(blocks, n / k, n % k)
  }

  method MakeBlocks(n: nat, k: nat) returns (blocks: seq<Block>)
    requires k > 0
    ensures Tiles(blocks, n, k)
  {
    var size, larger := n / k, n % k;
    LastEndsAt(n, k);
    blocks := BlocksOfSize(size, larger, k);
  }

  lemma DivideMod(n: nat, k: nat)
    requires k > 0
    ensures k * (n / k) + n % k == n && n % k < k
  {
  }

  lemma LastEndsAt(n: nat, k: nat)
    requires k > 0
    ensures StartAt(n / k, n % k, k) == n
  {
    StartIs(n / k, n % k, k);
    DivideMod(n, k);
  }

  method BlocksOfSize(size: nat, larger: nat, k: nat) returns (blocks: seq<Block>)
    ensures |blocks| == k && Consecutive(blocks, size, larger)
    ensures k > 0 ==> blocks[k - 1].end == StartAt(size, larger, k)
  {
    blocks := [];
    var start := 0;
    for b := 0 to k
      invariant |blocks| == b && start == StartAt(size, larger, b)
      invariant b > 0 ==> blocks[b - 1].end == start
      invariant Consecutive(blocks, size, larger)
    {
      var next := start + size + if b < larger then 1 else 0;
      blocks := blocks + [Block(start, next)];
      start := next;
    }
  }

  lemma {:induction false} BlocksAscend(blocks: seq<Block>, n: nat, k: nat, i: nat, j: nat)
    requires 0 < k <= n && Tiles(blocks, n, k) && i < j < k
    ensures blocks[i].start < blocks[i].end <= blocks[j].start
    decreases j
  {
    QuotientPositive(n, k);
    if j > i + 1 {
      BlocksAscend(blocks, n, k, i, j - 1);
      assert blocks[j - 1].end == blocks[j - 1 + 1].start;
    }
  }

  lemma QuotientPositive(n: nat, k: nat)
    requires 0 < k <= n
    ensures n / k >= 1
  {
    assert n / k != 0;
  }

  /** Each sample lies in exactly one block. */
  lemma {:induction false} BlockOf(blocks: seq<Block>, n: nat, k: nat, i: nat, upTo: nat) returns (j: nat)
    requires 0 < k && Tiles(blocks, n, k) && upTo < k && i < blocks[upTo].end
    ensures j <= upTo && blocks[j].Has(i)
    decreases upTo
  {
    if i >= blocks[upTo].start {
      j := upTo;
    } else {
      assert blocks[upTo - 1].end == blocks[upTo - 1 + 1].start;
      j := BlockOf(blocks, n, k, i, upTo - 1);
    }
  }

  // ---------------------------------------------------------------------------------------------
  // What each sample is for, by what its label sees
  // ---------------------------------------------------------------------------------------------

  datatype Role = Test | Purged | Embargoed | Train

  /** The sample is in one of the chosen blocks. */
  predicate Tested(chosen: seq<Block>, i: int) {
    exists j | 0 <= j < |chosen| :: chosen[j].Has(i)
  }

  /** The label of sample `i`, spanning `purge` observations forward, sees a test observation. */
  predicate LabelSeesTest(chosen: seq<Block>, purge: nat, i: int) {
    exists t | i <= t < i + purge + 1 :: Tested(chosen, t)
  }

  /** The sample is within `embargo` observations after a test block. */
  predicate FollowsTest(chosen: seq<Block>, embargo: nat, i: int) {
    exists j | 0 <= j < |chosen| :: chosen[j].end <= i < chosen[j].end + embargo
  }

  function RoleOf(chosen: seq<Block>, purge: nat, embargo: nat, i: int): Role {
    if Tested(chosen, i) then Test
    else if LabelSeesTest(chosen, purge, i) then Purged
    else if FollowsTest(chosen, embargo, i) then Embargoed
    else Train
  }

  /** The samples below `n` with a role, in order. */
  function Holding(role: Role, chosen: seq<Block>, purge: nat, embargo: nat, n: nat): seq<nat> {
    if n == 0 then []
    else Holding(role, chosen, purge, embargo, n - 1) + if RoleOf(chosen, purge, embargo, n - 1) == role then [n - 1] else []
  }

  predicate InRange(combo: seq<nat>, k: nat) {
    forall j | 0 <= j < |combo| :: combo[j] < k
  }

  function Chosen(blocks: seq<Block>, combo: seq<nat>): (chosen: seq<Block>)
    requires InRange(combo, |blocks|)
    ensures |chosen| == |combo| && forall j | 0 <= j < |combo| :: chosen[j] == blocks[combo[j]]
  {
    seq(|combo|, j requires 0 <= j < |combo| => blocks[combo[j]])
  }

  predicate IsFold(fold: Fold, number: nat, combo: seq<nat>, chosen: seq<Block>, purge: nat, embargo: nat, n: nat) {
    && fold.number == number && fold.testBlocks == combo
    && fold.train == Holding(Train, chosen, purge, embargo, n)
    && fold.test == Holding(Test, chosen, purge, embargo, n)
    && fold.purged == |Holding(Purged, chosen, purge, embargo, n)|
    && fold.embargoed == |Holding(Embargoed, chosen, purge, embargo, n)|
  }

  /** `s` lists the samples below `n` with a role, each once and in order. */
  ghost predicate Lists(s: seq<nat>, role: Role, chosen: seq<Block>, purge: nat, embargo: nat, n: nat) {
    && (forall i: nat :: i in s <==> i < n && RoleOf(chosen, purge, embargo, i) == role)
    && forall a, b | 0 <= a < b < |s| :: s[a] < s[b]
  }

  lemma {:induction false} HoldingExact(role: Role, chosen: seq<Block>, purge: nat, embargo: nat, n: nat)
    ensures Lists(Holding(role, chosen, purge, embargo, n), role, chosen, purge, embargo, n)
  {
    if n > 0 {
      HoldingExact(role, chosen, purge, embargo, n - 1);
      ListsOneMore(Holding(role, chosen, purge, embargo, n - 1), role, chosen, purge, embargo, n - 1);
    }
  }

  lemma ListsOneMore(t: seq<nat>, role: Role, chosen: seq<Block>, purge: nat, embargo: nat, last: nat)
    requires Lists(t, role, chosen, purge, embargo, last)
    ensures Lists(t + if RoleOf(chosen, purge, embargo, last) == role then [last] else [], role, chosen, purge, embargo, last + 1)
  {
    if RoleOf(chosen, purge, embargo, last) == role {
      AscendingPlus(t, last);
    } else {
      assert t + [] == t;
    }
  }

  lemma AscendingPlus(s: seq<nat>, last: nat)
    requires (forall i: nat :: i in s ==> i < last) && forall a, b | 0 <= a < b < |s| :: s[a] < s[b]
    ensures forall a, b | 0 <= a < b < |s + [last]| :: (s + [last])[a] < (s + [last])[b]
  {
    forall a | 0 <= a < |s| ensures s[a] < last {
      assert s[a] in s;
    }
  }

  /** Every sample has exactly one role: the four counts add up. */
  lemma {:induction false} RolesAddUp(chosen: seq<Block>, purge: nat, embargo: nat, n: nat)
    ensures |Holding(Test, chosen, purge, embargo, n)| + |Holding(Train, chosen, purge, embargo, n)|
            + |Holding(Purged, chosen, purge, embargo, n)| + |Holding(Embargoed, chosen, purge, embargo, n)| == n
  {
    if n > 0 {
      RolesAddUp(chosen, purge, embargo, n - 1);
    }
  }

  // ---------------------------------------------------------------------------------------------
  // One fold, by ranges around the chosen blocks
  // ---------------------------------------------------------------------------------------------

  predicate BeforeBlock(chosen: seq<Block>, purge: nat, i: int) {
    exists j | 0 <= j < |chosen| :: chosen[j].start - purge <= i < chosen[j].start
  }

  /** Dropping the samples just before each test block drops exactly those whose label sees one. */
  lemma PurgeIsLabelOverlap(chosen: seq<Block>, purge: nat, i: int)
    requires !Tested(chosen, i) && forall j | 0 <= j < |chosen| :: chosen[j].start < chosen[j].end
    ensures BeforeBlock(chosen, purge, i) <==> LabelSeesTest(chosen, purge, i)
  {
    if BeforeBlock(chosen, purge, i) {
      var j :| 0 <= j < |chosen| && chosen[j].start - purge <= i < chosen[j].start;
      assert chosen[j].Has(chosen[j].start);
      assert Tested(chosen, chosen[j].start);
    }
    if LabelSeesTest(chosen, purge, i) {
      var t :| i <= t < i + purge + 1 && Tested(chosen, t);
      var j :| 0 <= j < |chosen| && chosen[j].Has(t);
      assert !chosen[j].Has(i);
    }
  }

  function Range(lo: nat, hi: nat): (r: set<nat>)
    ensures forall i: nat :: i in r <==> lo <= i < hi
  {
    if lo >= hi then {} else Range(lo, hi - 1) + {hi - 1}
  }

  /** The three drop sets of a fold. */
  method DropSets(chosen: seq<Block>, purge: nat, embargo: nat, n: nat) returns (test: set<nat>, purged: set<nat>, embargoed: set<nat>)
    ensures forall i: nat :: i in test <==> Tested(chosen, i)
    ensures forall i: nat :: i in purged <==> BeforeBlock(chosen, purge, i)
    ensures forall i: nat :: i in embargoed <==> i < n && FollowsTest(chosen, embargo, i)
  {
    test, purged, embargoed := {}, {}, {};
    for j := 0 to |chosen|
      invariant forall i: nat :: i in test <==> Tested(chosen[..j], i)
      invariant forall i: nat :: i in purged <==> BeforeBlock(chosen[..j], purge, i)
      invariant forall i: nat :: i in embargoed <==> i < n && FollowsTest(chosen[..j], embargo, i)
    {
      var b := chosen[j];
      test := test + Range(b.start, b.end);
      purged := purged + Range(MaxInt(0, b.start - purge), b.start);
      embargoed := embargoed + Range(b.end, MinInt(n, b.end + embargo));
      OneMoreBlock(chosen, j, purge, embargo);
    }
    assert chosen[..|chosen|] == chosen;
  }

  lemma OneMoreBlock(chosen: seq<Block>, j: nat, purge: nat, embargo: nat)
    requires j < |chosen|
    ensures forall i: nat :: Tested(chosen[..j + 1], i) <==> Tested(chosen[..j], i) || chosen[j].Has(i)
    ensures forall i: nat :: BeforeBlock(chosen[..j + 1], purge, i) <==> BeforeBlock(chosen[..j], purge, i) || chosen[j].start - purge <= i < chosen[j].start
    ensures forall i: nat :: FollowsTest(chosen[..j + 1], embargo, i) <==> FollowsTest(chosen[..j], embargo, i) || chosen[j].end <= i < chosen[j].end + embargo
  {
    var one, two := chosen[..j], chosen[..j + 1];
    assert two == one + [chosen[j]];
    forall i: nat ensures Tested(two, i) <==> Tested(one, i) || chosen[j].Has(i) {
      if Tested(one, i) {
        var a :| 0 <= a < |one| && one[a].Has(i);
        assert two[a].Has(i);
      }
      if chosen[j].Has(i) {
        assert two[j].Has(i);
      }
    }
    forall i: nat ensures BeforeBlock(two, purge, i) <==> BeforeBlock(one, purge, i) || chosen[j].start - purge <= i < chosen[j].start {
      if BeforeBlock(one, purge, i) {
        var a :| 0 <= a < |one| && one[a].start - purge <= i < one[a].start;
        assert two[a].start - purge <= i < two[a].start;
      }
      if chosen[j].start - purge <= i < chosen[j].start {
        assert two[j].start - purge <= i < two[j].start;
      }
    }
    forall i: nat ensures FollowsTest(two, embargo, i) <==> FollowsTest(one, embargo, i) || chosen[j].end <= i < chosen[j].end + embargo {
      if FollowsTest(one, embargo, i) {
        var a :| 0 <= a < |one| && one[a].end <= i < one[a].end + embargo;
        assert two[a].end <= i < two[a].end + embargo;
      }
      if chosen[j].end <= i < chosen[j].end + embargo {
        assert two[j].end <= i < two[j].end + embargo;
      }
    }
  }

  method MakeFold(number: nat, combo: seq<nat>, chosen: seq<Block>, purge: nat, embargo: nat, n: nat) returns (fold: Fold)
    requires forall j | 0 <= j < |chosen| :: chosen[j].start < chosen[j].end <= n
    ensures IsFold(fold, number, combo, chosen, purge, embargo, n)
  {
    var testSet, purgeSet, embargoSet := DropSets(chosen, purge, embargo, n);
    var train, test: seq<nat> := [], [];
    var purged, embargoed := 0, 0;
    for i := 0 to n
      invariant train == Holding(Train, chosen, purge, embargo, i)
      invariant test == Holding(Test, chosen, purge, embargo, i)
      invariant purged == |Holding(Purged, chosen, purge, embargo, i)|
      invariant embargoed == |Holding(Embargoed, chosen, purge, embargo, i)|
    {
      if i in testSet {
        test := test + [i];
      } else {
        PurgeIsLabelOverlap(chosen, purge, i);
        if i in purgeSet {
          purged := purged + 1;
        } else if i in embargoSet {
          embargoed := embargoed + 1;
        } else {
          train := train + [i];
        }
      }
    }
    fold := Fold(number, combo, train, test, purged, embargoed);
  }

  // ---------------------------------------------------------------------------------------------
  // All folds
  // ---------------------------------------------------------------------------------------------

  /** The `j`-th fold tests the `j`-th choice of blocks. */
  predicate IsFoldOf(fold: Fold, number: nat, combo: seq<nat>, blocks: seq<Block>, purge: nat, embargo: nat, n: nat) {
    InRange(combo, |blocks|) && IsFold(fold, number, combo, Chosen(blocks, combo), purge, embargo, n)
  }

  predicate AreFolds(folds: seq<Fold>, combos: seq<seq<nat>>, blocks: seq<Block>, purge: nat, embargo: nat, n: nat) {
    |folds| == |combos| && forall j | 0 <= j < |folds| :: IsFoldOf(folds[j], j, combos[j], blocks, purge, embargo, n)
  }

  method Splits(n: nat, nBlocks: int, kTest: int, purge: int, embargo: int) returns (r: Result<seq<Fold>, Error>, ghost blocks: seq<Block>)
    ensures r.Success? <==> MIN_BLOCKS <= nBlocks <= n && 1 <= kTest < nBlocks && purge >= 0 && embargo >= 0
    ensures nBlocks < MIN_BLOCKS ==> r == Failure(TooFewBlocks)
    ensures nBlocks >= MIN_BLOCKS && !(1 <= kTest < nBlocks) ==> r == Failure(BadTestCount)
    ensures MIN_BLOCKS <= nBlocks && 1 <= kTest < nBlocks && purge < 0 ==> r == Failure(NegativePurge)
    ensures MIN_BLOCKS <= nBlocks && 1 <= kTest < nBlocks && purge >= 0 > embargo ==> r == Failure(NegativeEmbargo)
    ensures r.Success? ==> Tiles(blocks, n, nBlocks) && AreFolds(r.value, Combos(0, nBlocks, kTest), blocks, purge, embargo, n)
  {
    blocks := [];
    if nBlocks < MIN_BLOCKS {
      return Failure(TooFewBlocks), [];
    }
    if !(1 <= kTest < nBlocks) {
      return Failure(BadTestCount), [];
    }
    if purge < 0 {
      return Failure(NegativePurge), [];
    }
    if embargo < 0 {
      return Failure(NegativeEmbargo), [];
    }
    if n < nBlocks {
      return Failure(TooFewSamples), [];
    }
    var bs := MakeBlocks(n, nBlocks);
    blocks := bs;
    var folds := FoldsOf(bs, n, nBlocks, kTest, purge, embargo);
    r := Success(folds);
  }

  method FoldsOf(blocks: seq<Block>, n: nat, nBlocks: nat, kTest: nat, purge: nat, embargo: nat) returns (folds: seq<Fold>)
    requires 0 < nBlocks <= n && Tiles(blocks, n, nBlocks)
    ensures AreFolds(folds, Combos(0, nBlocks, kTest), blocks, purge, embargo, n)
  {
    var combos := Combos(0, nBlocks, kTest);
    folds := [];
    for c := 0 to |combos|
      invariant AreFolds(folds, combos[..c], blocks, purge, embargo, n)
    {
      CombosAreChoices(0, nBlocks, kTest, c);
      var chosen := Chosen(blocks, combos[c]);
      ChosenWithin(blocks, n, nBlocks, combos[c]);
      var fold := MakeFold(|folds|, combos[c], chosen, purge, embargo, n);
      folds := folds + [fold];
    }
    assert combos[..|combos|] == combos;
  }

  /** Chosen blocks are non-empty and inside the series. */
  lemma ChosenWithin(blocks: seq<Block>, n: nat, k: nat, combo: seq<nat>)
    requires 0 < k <= n && Tiles(blocks, n, k) && InRange(combo, k)
    ensures forall j | 0 <= j < |combo| :: Chosen(blocks, combo)[j].start < Chosen(blocks, combo)[j].end <= n
  {
    forall j | 0 <= j < |combo| ensures blocks[combo[j]].start < blocks[combo[j]].end <= n {
      QuotientPositive(n, k);
      if combo[j] < k - 1 {
        BlocksAscend(blocks, n, k, combo[j], k - 1);
      }
    }
  }

  /** One fold per choice of test blocks, and no choice twice. */
  lemma FoldsAreAllChoices(folds: seq<Fold>, nBlocks: nat, kTest: nat, blocks: seq<Block>, purge: nat, embargo: nat, n: nat)
    requires AreFolds(folds, Combos(0, nBlocks, kTest), blocks, purge, embargo, n)
    ensures |folds| == Choose(nBlocks, kTest)
    ensures forall i, j | 0 <= i < j < |folds| :: folds[i].testBlocks != folds[j].testBlocks
    ensures forall c :: Choice(c, 0, nBlocks, kTest) ==> exists j :: 0 <= j < |folds| && folds[j].testBlocks == c
  {
    var combos := Combos(0, nBlocks, kTest);
    CombosCount(0, nBlocks, kTest);
    forall i, j | 0 <= i < j < |folds| ensures folds[i].testBlocks != folds[j].testBlocks {
      CombosDiffer(0, nBlocks, kTest, i, j);
    }
    forall c | Choice(c, 0, nBlocks, kTest) ensures exists j :: 0 <= j < |folds| && folds[j].testBlocks == c {
      ChoicesAreListed(0, nBlocks, kTest, c);
      var j :| 0 <= j < |combos| && combos[j] == c;
      assert folds[j].testBlocks == c;
    }
  }

  /** A fold uses every sample once: tested, trained on, purged or embargoed. */
  lemma FoldPartitions(fold: Fold, number: nat, combo: seq<nat>, blocks: seq<Block>, purge: nat, embargo: nat, n: nat)
    requires IsFoldOf(fold, number, combo, blocks, purge, embargo, n)
    ensures |fold.test| + |fold.train| + fold.purged + fold.embargoed == n
    ensures forall i: nat | i in fold.test :: i < n && i !in fold.train
  {
    var chosen := Chosen(blocks, combo);
    RolesAddUp(chosen, purge, embargo, n);
    HoldingExact(Test, chosen, purge, embargo, n);
    HoldingExact(Train, chosen, purge, embargo, n);
  }

  /** No training label sees a test observation, and no training sample is within the embargo. */
  lemma TrainingDoesNotLeak(fold: Fold, number: nat, combo: seq<nat>, blocks: seq<Block>, purge: nat, embargo: nat, n: nat, i: nat, t: nat)
    requires IsFoldOf(fold, number, combo, blocks, purge, embargo, n) && i in fold.train && t in fold.test
    ensures !(i <= t <= i + purge)
    ensures forall j | 0 <= j < |combo| :: !(blocks[combo[j]].end <= i < blocks[combo[j]].end + embargo)
  {
    var chosen := Chosen(blocks, combo);
    HoldingExact(Test, chosen, purge, embargo, n);
    HoldingExact(Train, chosen, purge, embargo, n);
    forall j | 0 <= j < |combo| ensures !(blocks[combo[j]].end <= i < blocks[combo[j]].end + embargo) {
      assert chosen[j] == blocks[combo[j]];
    }
  }

  /** Nothing is dropped needlessly: a sample left out of both sets has a label that sees a test
    * observation or is within the embargo. */
  lemma DropsAreNeeded(fold: Fold, number: nat, combo: seq<nat>, blocks: seq<Block>, purge: nat, embargo: nat, n: nat, i: nat)
    requires IsFoldOf(fold, number, combo, blocks, purge, embargo, n) && i < n
    ensures i !in fold.train && i !in fold.test <==>
            !Tested(Chosen(blocks, combo), i)
            && (LabelSeesTest(Chosen(blocks, combo), purge, i) || FollowsTest(Chosen(blocks, combo), embargo, i))
  {
    HoldingExact(Test, Chosen(blocks, combo), purge, embargo, n);
    HoldingExact(Train, Chosen(blocks, combo), purge, embargo, n);
  }

  // ---------------------------------------------------------------------------------------------
  // Every sample is tested equally often
  // ---------------------------------------------------------------------------------------------

  function TimesTested(folds: seq<Fold>, i: nat): nat {
    if |folds| == 0 then 0 else TimesTested(folds[..|folds| - 1], i) + if i in folds[|folds| - 1].test then 1 else 0
  }

  /** A sample is tested exactly by the choices holding its block. */
  lemma TestedByBlock(fold: Fold, number: nat, combo: seq<nat>, blocks: seq<Block>, purge: nat, embargo: nat, n: nat, k: nat, i: nat, b: nat)
    requires 0 < k <= n && Tiles(blocks, n, k) && IsFoldOf(fold, number, combo, blocks, purge, embargo, n)
    requires i < n && b < k && blocks[b].Has(i)
    ensures i in fold.test <==> b in combo
  {
    var chosen := Chosen(blocks, combo);
    HoldingExact(Test, chosen, purge, embargo, n);
    if i in fold.test {
      var j :| 0 <= j < |chosen| && chosen[j].Has(i);
      OneBlockOnly(blocks, n, k, i, b, combo[j]);
    }
    if b in combo {
      var j :| 0 <= j < |combo| && combo[j] == b;
      assert chosen[j].Has(i);
    }
  }

  lemma OneBlockOnly(blocks: seq<Block>, n: nat, k: nat, i: nat, a: nat, b: nat)
    requires 0 < k <= n && Tiles(blocks, n, k) && a < k && b < k && blocks[a].Has(i) && blocks[b].Has(i)
    ensures a == b
  {
    if a < b {
      BlocksAscend(blocks, n, k, a, b);
    } else if b < a {
      BlocksAscend(blocks, n, k, b, a);
    }
  }

  lemma {:induction false} TimesByBlock(folds: seq<Fold>, combos: seq<seq<nat>>, blocks: seq<Block>, purge: nat, embargo: nat, n: nat, k: nat, i: nat, b: nat)
    requires 0 < k <= n && Tiles(blocks, n, k) && AreFolds(folds, combos, blocks, purge, embargo, n)
    requires i < n && b < k && blocks[b].Has(i)
    ensures TimesTested(folds, i) == CountWith(combos, b)
  {
    if |folds| > 0 {
      var last := |folds| - 1;
      TimesByBlock(folds[..last], combos[..last], blocks, purge, embargo, n, k, i, b);
      TestedByBlock(folds[last], last, combos[last], blocks, purge, embargo, n, k, i, b);
      CountWithLast(combos, b);
    }
  }

  lemma CountWithLast(cs: seq<seq<nat>>, x: nat)
    requires |cs| > 0
    ensures CountWith(cs, x) == CountWith(cs[..|cs| - 1], x) + if x in cs[|cs| - 1] then 1 else 0
  {
    var last := |cs| - 1;
    assert cs == cs[..last] + [cs[last]];
    CountWithAppend(cs[..last], [cs[last]], x);
  }

  /** Every sample is in the test set of exactly `Choose(nBlocks - 1, kTest - 1)` folds. */
  lemma TestedEqually(folds: seq<Fold>, nBlocks: nat, kTest: nat, blocks: seq<Block>, purge: nat, embargo: nat, n: nat, i: nat)
    requires 1 <= kTest < nBlocks <= n && Tiles(blocks, n, nBlocks)
    requires AreFolds(folds, Combos(0, nBlocks, kTest), blocks, purge, embargo, n) && i < n
    ensures TimesTested(folds, i) == Choose(nBlocks - 1, kTest - 1)
  {
    var b := BlockOf(blocks, n, nBlocks, i, nBlocks - 1);
    TimesByBlock(folds, Combos(0, nBlocks, kTest), blocks, purge, embargo, n, nBlocks, i, b);
    EachChosenEqually(0, nBlocks, kTest, b);
  }
}
