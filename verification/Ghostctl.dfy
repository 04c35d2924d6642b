/** The `rotate` command: every target in turn over one burned store, which is then pruned. */
module Ghostctl {
  import opened Common
  import opened Burned
  import opened Actions
  import opened Draws
  import opened Rotator
  import opened Legs

  /** Rotates one target of a run; `leg` is what became of it. */
  method RotateNext(r: Rotator, target: Target) returns (result: Outcome, err: Option<Error>, ghost leg: Leg)
    requires r.Valid() && r.provider != null
    modifies r.Frame()
    ensures r.Valid() && r.provider.cloud.Later() && Rotated(r.Rules(), r.provider.cloud.topo, r.post, leg)
    ensures leg == Leg(target, result, err, leg.draws, leg.failed, old(r.Here()), r.Here(), old(Records(r.post)),
                       Records(r.post))
  {
    hide Accounts, Progress, Carries;
    ghost var before, was := r.Here(), Records(r.post);
    ghost var draws, failed;
    result, err, draws, failed := r.Rotate(target);
    leg := Leg(target, result, err, draws, failed, before, r.Here(), was, Records(r.post));
  }

  /** Rotates every target, going on past failures, then prunes the store to the burn window
      and writes it. `legs` is the course of the run, and `end` where it stood before the save. */
  method RotateAll(r: Rotator, targets: seq<Target>)
    returns (results: seq<Outcome>, failures: nat, saved: bool, ghost legs: seq<Leg>, ghost end: Journal)
    requires r.Valid() && r.provider != null && r.burned != null
    modifies r.Frame(), r.burned.file
    ensures Course(r.Rules(), r.provider.cloud.topo, r.post, targets, legs, old(r.Here()), old(Records(r.post)), end,
                   Records(r.post))
    ensures |results| == |legs| && (forall i | 0 <= i < |legs| :: results[i] == legs[i].result)
    ensures failures == Failures(legs)
    ensures r.Here() == end.(known := r.burned.entries)
    ensures r.burned.entries == if r.burned.file == null then end.known else Prune(end.known, r.burnWindow, end.from)
    ensures r.burned.file != null && saved ==> r.burned.file.content == Stored(r.burned.entries)
  {
    hide Rotated;
    results, failures, legs := [], 0, [];
    ghost var j, was := r.Here(), Records(r.post);
    for i := 0 to |targets|
      invariant r.Valid() && |results| == |legs| == i && failures == Failures(legs)
      invariant forall k | 0 <= k < i :: results[k] == legs[k].result
      invariant Course(r.Rules(), r.provider.cloud.topo, r.post, targets[..i], legs, j, was, r.Here(), Records(r.post))
    {
      var result, err;
      ghost var leg;
      result, err, leg := RotateNext(r, targets[i]);
      CourseGrows(r.Rules(), r.provider.cloud.topo, r.post, targets[..i], legs, j, was, leg);
      assert targets[..i] + [targets[i]] == targets[..i + 1];
      results, legs := results + [result], legs + [leg];
      if err.Some? {
        failures := failures + 1;
      }
    }
    assert targets[..|targets|] == targets;
    end := r.Here();
    saved := SaveBurned(r);
  }

  /** Prunes and writes the store, which leaves everything else alone. */
  method SaveBurned(r: Rotator) returns (saved: bool)
    requires r.Valid() && r.provider != null && r.burned != null
    modifies r.burned, r.burned.file
    ensures r.Here() == old(r.Here()).(known := r.burned.entries) && Records(r.post) == old(Records(r.post))
    ensures r.burned.entries == if r.burned.file == null then old(r.burned.entries)
                                else Prune(old(r.burned.entries), r.burnWindow, old(r.Here()).from)
    ensures r.burned.file != null && saved ==> r.burned.file.content == Stored(r.burned.entries)
  {
    FileElsewhere(r.post, r.burned);
    saved := r.burned.Save(r.burnWindow, r.provider.cloud.now);
  }

  lemma {:induction false} FileElsewhere(post: seq<PostAction>, burned: BurnedStore)
    ensures burned !in FootprintOf(post) && burned.file !in FootprintOf(post)
  {
    forall i | 0 <= i < |post|
      ensures burned !in Footprint(post[i]) && burned.file !in Footprint(post[i])
    {
    }
  }
}
