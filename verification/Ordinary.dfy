/** The ordinary comparison of `Warm.WarmEqualsCold`, spelt out: a first build in a clean tree executes its
    only action, a second one finds the output in place and the result in the cache. */
module Ordinary {
  import opened Paths
  import opened Dag
  import opened Observations
  import opened Targets
  import opened Scheduler
  import opened World
  import opened Warm
  import Cache

  const Src := Path(3, "src")
  const Out := Path(3, "out")
  const Reading := Obs(ObsFile, Src, "")

  /** One discovered action, which writes `out`. */
  function OneAction(): Graph {
    Graph([Artifact(File, "out", Out, Some(0), [])], [Action(Discovered, 1, [], [0])], {})
  }

  /** The action reads `src` and produces 7. */
  ghost function Meaning(): Cache.Env {
    Cache.Env((w: Cache.WeakKey) => Read(Reading, imap[Content(5) := Return([7])]),
              (filter: string, name: string) => true, map[])
  }

  ghost function Given(ix: Index): Setup {
    Setup(Plan(OneAction(), ix), Meaning(), (d: Digest) => map[], map[Src := 5], [0])
  }

  /** The end of a run that executed the action, or restored it. */
  function Ended(hit: bool): State {
    var flight := Flight(Idle, 0, hit, false, if hit then [] else [Reading]);
    State([Slot(0, 0, true, false, 1, [], flight, !hit)], [], 1, 0, false, [Some([Reading])])
  }

  function Flown(): Trip {
    Trip(0, 1, 2, [(Reading, 0)], (o: Obs) => 0, 0, 0)
  }

  const Weak := Cache.WeakKey({}, 1, [], [(File, "out")])
  const Key := Cache.Strong(Weak, Cache.PathSet([], [Reading]), [Content(5)])
  const Stored := Cache.Store(map[Weak := Cache.PathSet([], [Reading])], map[Key := [("out", 7)]])

  function ColdFs(time: nat): Fs {
    if time < 2 then map[Src := 5] else map[Src := 5, Out := 7]
  }

  function ColdCache(time: nat): Cache.Store {
    if time == 0 then Cache.Nothing else if time == 1 then Stored.(entries := map[]) else Stored
  }

  function First(): Build {
    Build(Ended(false), [7], [Flown()], ColdFs, ColdCache, 2)
  }

  function Second(): Build {
    Build(Ended(true), [7], [Flown()], (time: nat) => map[Src := 5, Out := 7], (time: nat) => Stored, 2)
  }

  function BuildOf(hit: bool): Build {
    if hit then Second() else First()
  }

  lemma ListsAreSound()
    ensures var g := OneAction(); IdsInRange(g) && ConsumersMirror(g) && ProducersAgree(g)
  {
    var g := OneAction();
    assert g.actions[0].consumes == [] && g.artifacts[0].consumers == [];
  }

  lemma PathsAreSound()
    ensures PathsSound(OneAction()) && PathsUnique(OneAction())
  {
  }

  lemma OutputIsNamed()
    ensures IdsInRange(OneAction()) && OutputsNamed(OneAction())
  {
    assert '/' !in "out";
  }

  lemma GraphIsSound(ix: Index)
    requires Indexes(OneAction(), ix)
    ensures Plan(OneAction(), ix).Sound()
  {
    hide ConsumersMirror, ProducersAgree, OutputsNamed, PathsSound, PathsUnique, Indexes;
    ListsAreSound();
    PathsAreSound();
    OutputIsNamed();
  }

  lemma CountsAreExact(ix: Index, hit: bool)
    requires Indexes(OneAction(), ix)
    ensures var p, s := Plan(OneAction(), ix), Ended(hit);
      Shape(p, s) && Counted(p, s) && Timed(p, s) && Parked(p, s) && OnlyDiscoveredWait(p, s)
  {
    var p, s := Plan(OneAction(), ix), Ended(hit);
    assert Pool(s) == {} && Done(s) == {0};
    assert Open(p.g, s.slots) == {};
    assert WaitSum(s.slots, 0) == 0;
  }

  lemma ReadsAreSafe(ix: Index, hit: bool)
    requires Plan(OneAction(), ix).Sound() && Shape(Plan(OneAction(), ix), Ended(hit))
    ensures InputsFirst(Plan(OneAction(), ix), Ended(hit)) && ReadsSafe(Plan(OneAction(), ix), Ended(hit))
  {
    var p, s := Plan(OneAction(), ix), Ended(hit);
    forall q | q in p.Leads([Reading]) ensures q == 0 {
      LeadsInRange(p, [Reading], q);
    }
    assert Basis(s, 0) == [Reading];
  }

  lemma StateIsReachable(ix: Index, hit: bool)
    requires Indexes(OneAction(), ix)
    ensures Core(Plan(OneAction(), ix), Ended(hit))
  {
    GraphIsSound(ix);
    CountsAreExact(ix, hit);
    ReadsAreSafe(ix, hit);
  }

  lemma BuildIsShaped(ix: Index, hit: bool)
    requires Indexes(OneAction(), ix)
    ensures Shaped(Given(ix), BuildOf(hit)) && Finished(Given(ix), BuildOf(hit))
    ensures WeakOf(OneAction(), BuildOf(hit).digests, 0) == Weak
    ensures DigestsOf(BuildOf(hit).digests, OneAction().actions[0].produces) == [7]
  {
    StateIsReachable(ix, hit);
    var g := OneAction();
    assert g.actions[0].produces[..0] == [] && g.actions[0].consumes == [];
    assert NamesOf(g, g.actions[0].produces) == [(File, "out")];
  }

  lemma SrcIsApart(x: Path)
    ensures Under(Reading, x) ==> x != Out
    ensures Writes(OneAction(), 0, x) ==> x == Out
  {
    assert Src.sub[0] != Out.sub[0];
  }

  lemma OutputIsInPlace(ix: Index, hit: bool)
    requires Indexes(OneAction(), ix) && Shaped(Given(ix), BuildOf(hit))
    ensures OutputsInPlace(Given(ix), BuildOf(hit))
  {
    hide Core;
    forall t, x | 0 <= t < 1 && Writes(OneAction(), t, x) ensures x == Out {
      SrcIsApart(x);
    }
  }

  lemma SourceIsUntouched(ix: Index, hit: bool)
    requires Indexes(OneAction(), ix) && Shaped(Given(ix), BuildOf(hit))
    ensures SourcesUntouched(Given(ix), BuildOf(hit))
  {
    hide Core;
    var u, b := Given(ix), BuildOf(hit);
    assert Basis(b.state, 0) == [Reading];
    forall o, x, time: nat | ReadBy(u, b, 0, o) && Under(o, x) && InWindow(b, 0, time)
      ensures SameAt(b.fs(time), u.source, x)
    {
      assert o == Reading;
      SrcIsApart(x);
    }
  }

  lemma EverythingIsSeen(ix: Index, hit: bool)
    requires Indexes(OneAction(), ix) && Shaped(Given(ix), BuildOf(hit))
    ensures FullySeen(Given(ix), BuildOf(hit))
  {
    hide Core;
    assert Basis(BuildOf(hit).state, 0) == [Reading];
    SrcIsApart(Out);
    assert Covered(OneAction(), Reading);
  }

  lemma WorldIsHonest(ix: Index, hit: bool)
    requires Indexes(OneAction(), ix) && Shaped(Given(ix), BuildOf(hit))
    ensures Honest(Given(ix), BuildOf(hit)) && FullySeen(Given(ix), BuildOf(hit))
  {
    hide Core, OutputsInPlace, SourcesUntouched, FullySeen;
    OutputIsInPlace(ix, hit);
    SourceIsUntouched(ix, hit);
    EverythingIsSeen(ix, hit);
  }

  lemma AnswersAreContent(ix: Index, hit: bool)
    requires Indexes(OneAction(), ix) && Shaped(Given(ix), BuildOf(hit))
    ensures forall o :: Checks(Given(ix), BuildOf(hit), 0)(o) == Look(Given(ix).env.glob, BuildOf(hit).fs(0), o)
    ensures Checks(Given(ix), BuildOf(hit), 0)(Reading) == Content(5)
    ensures Cache.AllResolve([Reading], Checks(Given(ix), BuildOf(hit), 0))
    ensures Cache.Answers([Reading], Checks(Given(ix), BuildOf(hit), 0)) == [Content(5)]
  {
  }

  lemma RowsAreUnpinned()
    ensures Cache.SetOf(Weak, [Reading]) == Cache.PathSet([], [Reading]) && Unpinned({}, [Reading]) == [Reading]
  {
    var rows := [Reading];
    assert rows[..0] == [] && rows[0] == Reading;
    assert Unpinned({}, rows[..0]) == [] && PinnedRows({}, rows[..0]) == [];
  }

  lemma FirstRan(ix: Index)
    requires Indexes(OneAction(), ix) && Shaped(Given(ix), First())
    requires WeakOf(OneAction(), First().digests, 0) == Weak
    requires DigestsOf(First().digests, OneAction().actions[0].produces) == [7]
    ensures Accounted(Given(ix), First())
  {
    hide Core;
    assert ObservedBy(Flown().steps) == [Reading];
    assert Ran(Given(ix), First(), 0);
  }

  lemma FirstFiled(ix: Index)
    requires Indexes(OneAction(), ix) && Shaped(Given(ix), First())
    requires WeakOf(OneAction(), First().digests, 0) == Weak
    requires DigestsOf(First().digests, OneAction().actions[0].produces) == [7]
    ensures CacheSteps(Given(ix), First())
  {
    hide Core;
    var u, b := Given(ix), First();
    AnswersAreContent(ix, false);
    RowsAreUnpinned();
    assert Cache.Noted(Cache.Nothing, Discovered, Weak, [Reading]) == ColdCache(1);
    assert Files(u, b, 0, ColdCache(1), ColdCache(2)) by {
      assert Cache.Digests([("out", 7)]) == [7];
      assert Cache.Filed(ColdCache(1), Some(Key), [("out", 7)]) == ColdCache(2);
    }
    forall n: nat ensures CacheStep(u, b, b.cache(n), b.cache(n + 1)) {
    }
  }

  lemma FirstHappened(ix: Index)
    requires Indexes(OneAction(), ix)
    ensures Happened(Given(ix), First()) && Finished(Given(ix), First())
  {
    hide Core, Honest, FullySeen, Accounted, CacheSteps;
    BuildIsShaped(ix, false);
    WorldIsHonest(ix, false);
    FirstRan(ix);
    FirstFiled(ix);
  }

  lemma SecondTook(ix: Index)
    requires Indexes(OneAction(), ix) && Shaped(Given(ix), Second())
    requires WeakOf(OneAction(), Second().digests, 0) == Weak
    requires DigestsOf(Second().digests, OneAction().actions[0].produces) == [7]
    ensures Accounted(Given(ix), Second()) && CacheSteps(Given(ix), Second())
  {
    hide Core;
    AnswersAreContent(ix, true);
    assert Cache.Offer(Stored, Discovered, Weak, Checks(Given(ix), Second(), 0)) == Some([("out", 7)]);
    assert Cache.Digests([("out", 7)]) == [7];
    assert Took(Given(ix), Second(), 0);
  }

  lemma SecondHappened(ix: Index)
    requires Indexes(OneAction(), ix)
    ensures Happened(Given(ix), Second()) && Finished(Given(ix), Second())
  {
    hide Core, Honest, FullySeen, Accounted, CacheSteps;
    BuildIsShaped(ix, true);
    WorldIsHonest(ix, true);
    SecondTook(ix);
  }

  /** All that `Warm.WarmEqualsCold` asks of two builds can be met by a build in a clean tree and one that
      found its output in place and took it from the cache. */
  lemma OrdinaryCase(ix: Index)
    requires Indexes(OneAction(), ix)
    ensures var u := Given(ix);
      && Happened(u, Second()) && Finished(u, Second()) && Reaches(u.env, [Past(u, First())], Second().cache(0))
      && Happened(u, First()) && Finished(u, First()) && First().cache(0) == Cache.Nothing
    ensures First().fs(0) != Second().fs(0) && !First().state.slots[0].flight.hit && Second().state.slots[0].flight.hit
  {
    hide Happened, Finished;
    FirstHappened(ix);
    SecondHappened(ix);
    var series := [Past(Given(ix), First())];
    assert series[..0] == [];
    assert Reaches(Given(ix).env, [], First().cache(0));
    assert Out !in First().fs(0) && Out in Second().fs(0);
  }
}
