/** Where the two systems meet: the validator's answer to a reward request gives the ledger exactly
    the signers its awards are due to. */
module RewardReplies {
  import opened Ledgers
  import BlockTree
  import RewardList
  import Rewards

  /** The signers of the returned blocks, in the order returned. */
  function Reply(ids: seq<BlockTree.Id>, signer: BlockTree.Id -> Sighash): seq<Sighash> {
    seq(|ids|, k requires 0 <= k < |ids| => signer(ids[k]))
  }

  /** `signerOf` names the signer of the block at each height of the head's path. */
  ghost predicate SignsPath(t: BlockTree.Tree, head: BlockTree.Id, signer: BlockTree.Id -> Sighash,
                            signerOf: nat -> Sighash)
    requires BlockTree.Linked(t)
  {
    forall x <- BlockTree.Chain(t, head) :: x in t ==> signerOf(t[x].num) == signer(x)
  }

  /** A right answer is the honest reply that Rewards asks for. */
  lemma AnswerIsHonest(t: BlockTree.Tree, head: BlockTree.Id, lowest: nat, highest: nat, ids: seq<BlockTree.Id>,
                       signer: BlockTree.Id -> Sighash, signerOf: nat -> Sighash)
    requires BlockTree.Linked(t) && lowest <= highest && SignsPath(t, head, signer, signerOf)
    requires RewardList.IsAnswer(t, head, highest, lowest, ids)
    ensures Reply(ids, signer) == Rewards.Signers(signerOf, lowest, highest)
  {
    var reply := Reply(ids, signer);
    forall k | 0 <= k < |reply|
      ensures reply[k] == signerOf(lowest + k)
    {
      assert ids[k] in BlockTree.Chain(t, head) && t[ids[k]].num == lowest + k;
    }
  }
}
