/** The registry of job finders (`JOB_FINDERS`) shared by job_applier/job.py
    and job_applier/models/job.py: each finder is asked for the configured
    title and location, and the results are concatenated in registration
    order, with no deduplication. A finder's network access is hidden in
    the function value. */
module Finders {
  import opened Values

  type Finder<J> = (Option<string>, Option<string>) -> seq<J>

  /** What `find_jobs` returns after the first `|finders|` iterations. */
  function Collected<J>(finders: seq<Finder<J>>, title: Option<string>, location: Option<string>): seq<J> {
    if finders == [] then []
    else
      var n := |finders| - 1;
      Collected(finders[..n], title, location) + finders[n](title, location)
  }

  /** The number of results each finder returned, added up. */
  function TotalFound<J>(finders: seq<Finder<J>>, title: Option<string>, location: Option<string>): nat {
    if finders == [] then 0
    else |finders[0](title, location)| + TotalFound(finders[1..], title, location)
  }

  /** Concatenation read from the front: the first finder's results come
      first, then those of the rest. */
  lemma {:induction false} CollectedFront<J>(finders: seq<Finder<J>>, title: Option<string>, location: Option<string>)
    requires finders != []
    ensures Collected(finders, title, location)
         == finders[0](title, location) + Collected(finders[1..], title, location)
  {
    var n := |finders| - 1;
    if n == 0 {
      assert finders[1..] == [];
      assert finders[..n] == [];
    } else {
      CollectedFront(finders[..n], title, location);
      assert finders[..n][1..] == finders[1..][..n - 1];
      assert finders[..n][0] == finders[0];
      assert finders[1..][n - 1] == finders[n];
    }
  }

  /** Nothing is dropped or merged: the result holds exactly as many jobs
      as the finders returned together. */
  lemma {:induction false} NoDeduplication<J>(finders: seq<Finder<J>>, title: Option<string>, location: Option<string>)
    ensures |Collected(finders, title, location)| == TotalFound(finders, title, location)
  {
    if finders != [] {
      CollectedFront(finders, title, location);
      NoDeduplication(finders[1..], title, location);
    }
  }

  /** The results of finder `i` appear as one block, right after those of
      the finders registered before it. */
  lemma {:induction false} BlockInOrder<J>(finders: seq<Finder<J>>, title: Option<string>, location: Option<string>, i: nat)
    requires i < |finders|
    ensures var before := Collected(finders[..i], title, location);
            var block := finders[i](title, location);
            |before| + |block| <= |Collected(finders, title, location)|
            && Collected(finders, title, location)[..|before| + |block|] == before + block
  {
    var n := |finders| - 1;
    assert finders[..i + 1][..i] == finders[..i];
    if i == n {
      assert finders[..i] == finders[..n];
    } else {
      BlockInOrder(finders[..n], title, location, i);
      assert finders[..n][..i] == finders[..i];
      assert finders[..n][i] == finders[i];
    }
  }

  /** The `for finder in JOB_FINDERS: jobs += finder(title, location)` loop. */
  method FindAll<J>(finders: seq<Finder<J>>, title: Option<string>, location: Option<string>)
    returns (jobs: seq<J>)
    ensures jobs == Collected(finders, title, location)
  {
    jobs := [];
    for i := 0 to |finders|
      invariant jobs == Collected(finders[..i], title, location)
    {
      assert finders[..i + 1][..i] == finders[..i];
      jobs := jobs + finders[i](title, location);
    }
    assert finders[..|finders|] == finders;
  }
}
