/** The transaction system object: each method is tied to the function of TxModel it implements. */
module TxSystem {
  import opened Types
  import opened PowTypes
  import opened TxModel

  /** The transaction system object of the node; its fields are updated in place. */
  class FGPTxSystem {
    var dFG: U64
    var committedHash: Slice
    var committedHeight: U64
    var pendingHash: Slice
    var pendingHeight: U64
    var committedUC: Option<Certificate>

    ghost predicate Valid()
      reads this
    {
      dFG >= 1
    }

    ghost function State(): TxState
      reads this
    {
      TxState(dFG, committedHash, committedHeight, pendingHash, pendingHeight, committedUC)
    }

    constructor (dFG: U64)
      requires dFG >= 1
      ensures Valid()
      ensures State() == GenesisState(dFG)
    {
      this.dFG := dFG;
      committedHash, committedHeight := Nil, 0;
      pendingHash, pendingHeight := Nil, 0;
      committedUC := None;
    }

    /** The transaction system of a configuration; a missing, non-numeric or zero dFG is an error. */
    static method FromConf(conf: ShardConf) returns (tx: Option<FGPTxSystem>)
      ensures tx.Some? <==> conf.dFG.Some? && conf.dFG.value >= 1
      ensures tx.Some? ==> fresh(tx.value) && tx.value.Valid() && tx.value.State() == GenesisState(conf.dFG.value)
    {
      if conf.dFG.None? || conf.dFG.value == 0 {
        return None;
      }
      var created := new FGPTxSystem(conf.dFG.value);
      tx := Some(created);
    }

    method StateSummary() returns (root: Option<Slice>)
      ensures root == StateRoot(State())
    {
      if pendingHash != Nil {
        return None;
      }
      root := Some(committedHash);
    }

    method UpdateConfig(conf: ShardConf) returns (ok: bool)
      requires Valid()
      modifies this
      ensures Valid()
      ensures ok <==> TxModel.UpdateConfig(old(State()), conf).Some?
      ensures State() == if ok then TxModel.UpdateConfig(old(State()), conf).value else old(State())
    {
      if conf.dFG.None? || conf.dFG.value == 0 {
        return false;
      }
      dFG := conf.dFG.value;
      ok := true;
    }

    method LeaderPropose(pow: PowAnswers) returns (root: Option<Slice>)
      requires Valid()
      modifies this
      ensures Valid()
      ensures root.Some? <==> TxModel.LeaderPropose(old(State()), pow).Some?
      ensures root.Some? ==>
                State() == TxModel.LeaderPropose(old(State()), pow).value && root == Some(State().pendingHash)
      ensures root.None? ==> State() == old(State())
    {
      if pow.tip.None? {
        return None;
      }
      var tip := pow.tip.value;
      var finalized: U64 := 0;
      if committedHash != Nil {
        if Content(committedHash) !in pow.byHash {
          return None;
        }
        finalized := pow.byHash[Content(committedHash)].height;
      }
      if tip.height <= finalized {
        return None;
      }
      // the bounds just established are what keeps the unsigned subtractions from wrapping
      if tip.height - finalized < dFG - 1 {
        return None;
      }
      var candidate: U64 := tip.height - (dFG - 1);
      if candidate <= finalized || candidate !in pow.byHeight {
        return None;
      }
      var block := pow.byHeight[candidate];
      if pow.tips.None? {
        return None;
      }
      var free := CheckForks(pow.tips.value, candidate);
      if !free || block.hash.None? {
        return None;
      }
      pendingHash := Bytes(block.hash.value);
      pendingHeight := block.height;
      root := Some(pendingHash);
    }

    /** The loop over the reported chain tips. */
    static method CheckForks(tips: seq<ChainTip>, candidate: U64) returns (free: bool)
      ensures free <==> forall i :: 0 <= i < |tips| ==> !Competes(tips[i], candidate)
      ensures free <==> forall i :: 0 <= i < |tips| && !tips[i].status.Active? ==>
                tips[i].branchLen <= tips[i].height && (tips[i].height < candidate || candidate <= tips[i].height - tips[i].branchLen)
    {
      var i := 0;
      while i < |tips|
        invariant 0 <= i <= |tips|
        invariant forall j :: 0 <= j < i ==> !Competes(tips[j], candidate)
      {
        var t := tips[i];
        i := i + 1;
        if t.status.Active? {
          continue;
        }
        if t.branchLen > t.height {
          assert Competes(tips[i - 1], candidate);
          return false;
        }
        var forkHeight: U64 := t.height - t.branchLen;
        if t.height >= candidate && forkHeight < candidate {
          assert Competes(tips[i - 1], candidate);
          return false;
        }
      }
      free := true;
    }

    method FollowerVerify(pow: PowAnswers, root: Slice) returns (verified: Option<Slice>)
      requires Valid()
      modifies this
      ensures Valid()
      ensures verified.Some? <==> TxModel.FollowerVerify(old(State()), pow, root).Some?
      ensures verified.Some? ==>
                State() == TxModel.FollowerVerify(old(State()), pow, root).value && verified == Some(root)
      ensures verified.None? ==> State() == old(State())
    {
      if SameBytes(root, committedHash) {
        pendingHash := root;
        pendingHeight := committedHeight;
        return Some(root);
      }
      if Content(root) !in pow.byHash {
        return None;
      }
      var block := pow.byHash[Content(root)];
      if !IsActive(block) {
        return None;
      }
      if pow.tip.None? {
        return None;
      }
      var tip := pow.tip.value;
      if tip.height < block.height {
        return None;
      }
      if tip.height - block.height < dFG - 1 {
        return None;
      }
      pendingHash := root;
      pendingHeight := block.height;
      verified := Some(root);
    }

    method RestoreState(pow: PowAnswers, uc: Certificate) returns (ok: bool)
      requires Valid()
      modifies this
      ensures Valid()
      ensures ok <==> TxModel.RestoreState(old(State()), pow, uc).Some?
      ensures State() == if ok then TxModel.RestoreState(old(State()), pow, uc).value else old(State())
    {
      var stateHash := uc.ir.hash;
      if Content(stateHash) != [] {
        if Content(stateHash) !in pow.byHash {
          return false;
        }
        committedHeight := pow.byHash[Content(stateHash)].height;
      }
      committedHash := stateHash;
      committedUC := Some(uc);
      pendingHash := Nil;
      pendingHeight := 0;
      ok := true;
    }

    method Revert()
      requires Valid()
      modifies this
      ensures Valid()
      ensures State() == TxModel.Revert(old(State()))
    {
      pendingHash := Nil;
      pendingHeight := 0;
    }

    method Commit(uc: Certificate) returns (ok: bool)
      requires Valid()
      modifies this
      ensures Valid()
      ensures ok <==> TxModel.Commit(old(State()), uc).Some?
      ensures State() == if ok then TxModel.Commit(old(State()), uc).value else old(State())
    {
      if !SameBytes(pendingHash, uc.ir.hash) {
        return false;
      }
      committedHash := pendingHash;
      committedHeight := pendingHeight;
      committedUC := Some(uc);
      pendingHash := Nil;
      pendingHeight := 0;
      ok := true;
    }
  }
}
