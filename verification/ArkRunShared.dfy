/** A verified run that cannot be bundled: two Files over the same bytes. */
module ArkRunShared {
  import opened Common
  import opened Vault
  import opened RunLog
  import opened ArkRunBundle
  import opened ArkRunBuild
  import Collections
  import CS = ControlStore
  import RunOps
  import RunPlans
  import RunVerifiable

  /** The record `put_file` makes of the empty content under a name. */
  function Empty(h: Hashes, name: string): FileRecord {
    var basis := FileBasis(h.content([]), h.content([]), 0, name, "t", Public);
    FileRecord(h.file(basis), basis)
  }

  /** The store after `put_file` of the same bytes under two names. */
  function TwoNames(h: Hashes): Store {
    CS.WithFile(h, CS.WithFile(h, EmptyStore, [], Empty(h, "a")), [], Empty(h, "b"))
  }

  /** A run that binds both. */
  function BindsBoth(h: Hashes): RunBasis {
    var a, b := Empty(h, "a").id, Empty(h, "b").id;
    RunBasis("q", "t", if a < b then [a, b] else [b, a], None)
  }

  lemma TwoNamesSound(h: Hashes)
    requires h.Sound()
    ensures Collections.CollectionsInv(h, TwoNames(h)) && Empty(h, "a").id != Empty(h, "b").id
  {
    hide Collections.CollectionsInv;
    var v := CS.WithFile(h, EmptyStore, [], Empty(h, "a"));
    NothingIsSound(h);
    CS.StoringFile(h, EmptyStore, [], Empty(h, "a"));
    CS.StoringFile(h, v, [], Empty(h, "b"));
    assert Empty(h, "a").basis != Empty(h, "b").basis;
  }

  lemma NothingIsSound(h: Hashes)
    ensures Collections.CollectionsInv(h, EmptyStore)
  {
  }

  lemma CreatedLog(h: RunHashes)
    requires h.Sound()
    ensures
      var v, basis := TwoNames(h.store), BindsBoth(h.store);
      var r := Run(h.run(basis), basis);
      && RunOps.PlanCreate(h, v, EmptyLog, basis) == Ok([RunOps.PutRun(r), RunOps.PutHead(r.id, EmptyHead)])
      && RunOps.ApplyAll(EmptyLog, RunOps.PlanCreate(h, v, EmptyLog, basis).value)
         == Log(map[r.id := r], map[], map[r.id := EmptyHead])
  {
    hide Collections.CollectionsInv;
    TwoNamesSound(h.store);
    var basis := BindsBoth(h.store);
    var r := Run(h.run(basis), basis);
    var w1, w2 := RunOps.PutRun(r), RunOps.PutHead(r.id, EmptyHead);
    assert RunValid(h, TwoNames(h.store), r);
    assert [w1, w2][1..] == [w2] && [w2][1..] == [];
    assert RunOps.ApplyAll(EmptyLog, [w1, w2]) == RunOps.ApplyAll(RunOps.Apply(EmptyLog, w1), [w2]);
  }

  /** Two `put_file` and one `create_run` give a run that verifies and that no bundle exists for. */
  lemma SharedObject(p: Profile) returns (v: Store, log: Log, run: Id)
    requires p.Sound()
    ensures
      var basis := BindsBoth(p.h.store);
      v == TwoNames(p.h.store) && run == p.h.run(basis) && RunOps.PlanCreate(p.h, v, EmptyLog, basis).Ok?
      && log == RunOps.ApplyAll(EmptyLog, RunOps.PlanCreate(p.h, v, EmptyLog, basis).value)
    ensures SoundState(p.h, v, log) && VerifyRunAccepts(p.h, v, log, run)
    ensures forall g, capsule :: !Bundled(p, v, log, run, g, capsule)
  {
    hide Collections.CollectionsInv, RunPlans.LogInv, Bundled, RunOps.ApplyAll, RunOps.PlanCreate, WithinCapsule,
      GatheredOf;
    var basis := BindsBoth(p.h.store);
    v, run := TwoNames(p.h.store), p.h.run(basis);
    CreatedLog(p.h);
    log := RunOps.ApplyAll(EmptyLog, RunOps.PlanCreate(p.h, v, EmptyLog, basis).value);
    TwoNamesSound(p.h.store);
    CreatedIsSound(p.h, v, log, run);
    BundleExistsIff(p, v, log, run);
    var a, b := Empty(p.h.store, "a").id, Empty(p.h.store, "b").id;
    var files := BoundFiles(v, log.runs[run], History(p.h, v, log, run).value);
    assert a in basis.files && b in basis.files;
    assert a in files && b in files && a in v.files && b in v.files;
    assert v.files[a].basis.objectId == v.files[b].basis.objectId;
  }

  lemma CreatedIsSound(h: RunHashes, v: Store, log: Log, run: Id)
    requires h.Sound() && Collections.CollectionsInv(h.store, v)
    requires run in log.runs && log == Log(map[run := log.runs[run]], map[], map[run := EmptyHead])
    requires RunValid(h, v, log.runs[run]) && log.runs[run].id == run
    ensures SoundState(h, v, log) && VerifyRunAccepts(h, v, log, run)
  {
    hide Collections.Lineage, Collections.HeadSound, Collections.Rooted;
    assert History(h, v, log, run) == Some([]);
    assert RunPlans.LogInv(h, v, log);
    RunVerifiable.VerifyIffLinked(h, v, log, run);
  }
}
