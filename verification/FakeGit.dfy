/** Git as the worker sees it: refs moved by compare-and-set, one checkout, merges that mint commits. */
module Git {
  import opened Vocabulary

  datatype MergeOutcome = Merged(at: Sha) | Conflicted

  datatype RefUpdate = Updated | Stale

  const FIRST_MINTED := 0xc0ffee00

  class FakeGit {
    const configs: Sha -> Option<Config>
    const conflicting: set<Sha>
    const worktrees: seq<Option<string>>  // the branch each checkout holds, if it holds one
    var refs: map<string, Sha>
    var head: Option<Sha>
    var minted: nat

    constructor (configs: Sha -> Option<Config>, conflicting: set<Sha>, worktrees: seq<Option<string>>,
                 refs: map<string, Sha>)
      ensures this.configs == configs && this.conflicting == conflicting && this.worktrees == worktrees
      ensures this.refs == refs && head == None && minted == 0
    {
      this.configs, this.conflicting, this.worktrees := configs, conflicting, worktrees;
      this.refs, head, minted := refs, None, 0;
    }

    method Resolve(branch: string) returns (r: Result<Sha, string>)
      ensures r == if branch in refs then Ok(refs[branch]) else Err("no such ref: " + branch)
    {
      r := if branch in refs then Ok(refs[branch]) else Err("no such ref: " + branch);
    }

    method CheckoutDetached(at: Sha)
      modifies this`head
      ensures head == Some(at)
    {
      head := Some(at);
    }

    /** A conflict leaves the checkout where it was. */
    method Merge(commit: Sha) returns (r: Result<MergeOutcome, string>)
      modifies this`head, this`minted
      ensures r.Err? <==> old(head).None?
      ensures r.Ok? ==> (r.value.Conflicted? <==> commit in conflicting)
      ensures r.Err? || r.value.Conflicted? ==> head == old(head) && minted == old(minted)
      ensures r.Ok? && r.value.Merged? ==>
                minted == old(minted) + 1 && r.value.at == FIRST_MINTED + minted && head == Some(r.value.at)
    {
      if head.None? {
        return Err("nothing checked out to merge into");
      }
      if commit in conflicting {
        return Ok(Conflicted);
      }
      minted := minted + 1;
      head := Some(FIRST_MINTED + minted);
      r := Ok(Merged(FIRST_MINTED + minted));
    }

    /** Moves the branch only from where it was last seen. */
    method FastForward(branch: string, from: Sha, to: Sha) returns (r: Result<RefUpdate, string>)
      modifies this`refs
      ensures r.Err? <==> branch !in old(refs)
      ensures r.Ok? ==> (r.value.Updated? <==> old(refs)[branch] == from)
      ensures refs == if r == Ok(Updated) then old(refs)[branch := to] else old(refs)
    {
      if branch !in refs {
        return Err("no such ref: " + branch);
      }
      if refs[branch] != from {
        return Ok(Stale);
      }
      refs := refs[branch := to];
      r := Ok(Updated);
    }

    /** Someone else moves the branch. */
    method ForceBranch(branch: string, to: Sha)
      modifies this`refs
      ensures refs == old(refs)[branch := to]
    {
      refs := refs[branch := to];
    }
  }
}
