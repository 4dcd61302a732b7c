/** The candidate of an election, which counts its votes in a progress of booleans. */
module CandidateVotes {
  import opened Ids
  import opened Quorum
  import opened ProgressSpec
  import opened ProgressRuns
  import opened VecProgressImpl

  class Candidate {
    const vote: LeaderId
    const lastLogId: Option<LogId>
    const progress: VecProgress<bool>
    /** The calls of `GrantBy` so far. */
    ghost var granted: seq<NodeId>

    ghost predicate Valid()
      reads this, progress
    {
      && progress.le == GrantOrder()
      && progress.Valid()
      && |progress.quorumSet| > 0
      && progress.View() == Run(GrantOrder(), New(progress.quorumSet, [], false), Grants(granted))
    }

    constructor (vote: LeaderId, lastLogId: Option<LogId>, q: seq<set<NodeId>>)
      requires |q| > 0
      ensures Valid() && fresh(progress)
      ensures this.vote == vote && this.lastLogId == lastLogId && progress.quorumSet == q && granted == []
    {
      this.vote := vote;
      this.lastLogId := lastLogId;
      NoLearners(q);
      progress := new VecProgress(GrantOrder(), q, [], false);
      granted := [];
    }

    /** Counts a vote; the answer is whether those who granted so far are a joint quorum. */
    method GrantBy(target: NodeId) returns (quorum: bool)
      requires Valid()
      modifies this, progress
      ensures Valid() && granted == old(granted) + [target]
      ensures quorum <==> IsQuorum(progress.quorumSet, SetOf(granted))
    {
      ghost var p0 := New(progress.quorumSet, [], false);
      GrantValue(progress.View(), target);
      var r := progress.UpdateWith(target, _ => true);
      granted := granted + [target];
      assert Grants(granted)[..|granted| - 1] == Grants(old(granted));
      UnknownGrant(old(progress.View()), target);
      VoteCountIsExact(progress.quorumSet, granted);
      return r.value;
    }
  }

  lemma NoLearners(q: seq<set<NodeId>>)
    ensures TotalOrder(GrantOrder()) && Apart(q, [])
  {
  }

  lemma GrantValue(p: Progress<bool>, id: NodeId)
    ensures Value(p, id).Some? ==> GrantOrder()(Value(p, id).value, true)
  {
  }

  lemma UnknownGrant(p: Progress<bool>, id: NodeId)
    requires p.voterCount <= |p.entries|
    ensures Value(p, id).None? ==> Update(GrantOrder(), p, id, true) == p
  {
  }
}
