# MoonBite: consensus, commitments, wallet and swaps

A Dafny model of the MoonBite node and of the exchange beside it, with proofs of what they keep.
`dafny verify dfyconfig.toml` checks the whole project.

| file | models |
|---|---|
| `Params.dfy`, `Pow.dfy`, `MedianTime.dfy` | constants, subsidy schedule and supply cap; targets and the retarget rule; the median-time rule |
| `Ledger.dfy`, `CoinSet.dfy` | transactions, their verification and fees, coinbases; the unspent-output index |
| `Merkle.dfy`, `Padding.dfy`, `Membership.dfy`, `Spv.dfy` | Merkle root, branches and their check; which lists share a root, exactly; what an accepted branch proves, exactly; the header-only client |
| `Chain.dfy`, `Tree.dfy`, `NodeChain.dfy` | validity of a branch and what follows from it; the block tree as a value; class `Blockchain` |
| `Lineage.dfy`, `Rulebook.dfy` | what the index holds, by the places of transactions on the branch; the rules of the chain without an index, and that validation keeps exactly these |
| `Delivery.dfy`, `Orders.dfy`, `Witnesses.dfy` | blocks delivered one after the other; when their order is irrelevant, exactly; inputs for which it is not |
| `Stranding.dfy`, `Catching.dfy` | when an exception leaves an orphan behind, exactly; callers that catch the exception and go on |
| `Store.dfy`, `Mining.dfy` | saving and reloading a chain; mining |
| `Bits.dfy`, `Checksum.dfy`, `Detection.dfy`, `Address.dfy`, `Wallets.dfy` | Bech32 addresses (BIP 173), their checksum as division over a field and the errors it detects; the transaction builder |
| `Script.dfy`, `Interpreter.dfy`, `Swap.dfy`, `Atomicity.dfy` | script pushes and numbers; what the redeem script does when it is run; the verdict on an atomic swap; why a swap is all or nothing |
| `Exchange.dfy`, `ExchangeServer.dfy` | order book and swap tables; their operations |

How the model reads the source:

* A digest is symbolic: it is the term it was computed from. Two digests are equal exactly when their contents are,
  and none equals the all-zero text. Where single characters count (`bytes.fromhex` in `merkle.py:26-28`), a text is a
  list of characters, each either a plain one or one of the 64 hex digits of a digest. A Merkle node is the hash of the
  bytes such texts spell, whatever their number: `Node` where they are two whole digests, `Mixed` otherwise.
* What the node calls but does not define (the number a hash spells, the size of a serialised block, key hashes, ECDSA)
  is a field of `Rules`; every theorem holds for any choice of these. A key that is not hex has no hash and a key ECDSA
  rejects has no verdict: both raise (`transaction.py:62`, `transaction.py:232`).
* `Rulebook.dfy` says what a branch has to be by its blocks alone: which transaction made an output and stands where,
  which one took it, how old a coinbase is, who signed what, how many of the last eleven stamps are earlier. With the
  validation loops it shares only the hash, the Merkle root, the signed message, the subsidy and the sum of outputs,
  each with theorems of its own. `Rulebook.ValidExactly` says that validation with the unspent-output index keeps
  exactly these rules.
* Dictionaries and tables are maps. Where the source iterates over one, the order is a parameter or left open.
  The clock is a parameter. An exception is a result value (`None`, `Raised`).
* The dictionary `branches` (ghost) remembers the path from genesis to each stored block.
* `_validate_block` raises for bits outside 1..240, before they are compared with the expected ones (`node.py:152`,
  `pow.py:44`), and where verifying a transaction raises. The model keeps both: `AddBlock` may answer `Raised`, and an
  exception inside the orphan retries ends them, so an orphan can be left behind its stored parent
  (`Witnesses.OrphanCanBeStranded`). `Stranding.SomeOrderStrands` says when, if and only if: some delivered block raises
  on a branch of delivered blocks, and another waits for a block of that branch.
* A full node logs the exception and goes on with the next block (`full_node.py:229-238`). `Catching.dfy` is about such
  callers: the tree they end with is the same in every order if and only if no acceptable block with a parent other than
  genesis has a delivered twin and none can be left behind by an exception.
* Padding makes different lists share a root, at every level and not only at the leaves: six ids and the same six
  followed again by their last two. `Padding.SameRootExactly` says which, if and only if: the lists that padding fills
  up to the same full list.
* The header covers the body only through the Merkle root, and a redelivered orphan replaces the one with its hash
  (`node.py:192`). So the order of delivery can matter (`Witnesses.OrderCanMatter`). `Orders.OrderIsIrrelevantExactly`
  says when it does not, if and only if. Either no delivered block raises on a branch of delivered blocks and no
  acceptable block with a parent other than genesis has a delivered twin, another body under its header; or some
  delivered block, under whatever body, must raise. Where neither holds there are two orders no runs of which agree.
* Prices and amounts are `real`; the order book's float cast and the 28-digit rounding of a decimal product are
  arbitrary functions (`cast`, `product`).
* `Interpreter.dfy` runs the opcodes that `htlc_redeemscript` writes as Bitcoin Script runs them (BIP 65, BIP 141); hash
  and signature check are parameters. A locktime of 2^39 or more, which registration lets pass, takes more than the five
  bytes that CHECKLOCKTIMEVERIFY reads: such an output is never refunded (`Atomicity.LateLocksNeverOpen`).
* `passes` (ghost) lists the views of all verification passes of the exchange so far, and `quoteSeen` and `baseSeen`
  (ghost) the pass that established each secret and each settlement.
* `create_order` takes its lock twice. `InsertOrder` and `TryMatch` are the two halves, and steps of other callers may
  come between; `pending` (ghost) holds the orders in between.
* Where code and prose disagree the code counts. Blocks retarget every 2016 at 120 s, so the expected timespan is
  241,920 s (the comment in `pow.py:26` says 1,209,600 s). The emission loop gives 3,299,999,978,550,000 cents, which
  is 32,999,999.7855 coins, not the 32,999,999.96 of the comment in `params.py:41`
  (`Params.CapInCents`).

## Model

| member | source | states |
|---|---|---|
| Params.TotalEmission | params.py:27-41 | the loop's result is what all eras of the schedule pay out, for the schedule's start value |
| Params.CapInCents | params.py:27-41 | that is 3,299,999,978,550,000 cents |
| Params.SubsidyIsShift | block.py:36-44 | the cut-off at 64 halvings never changes a subsidy, and nothing is paid from the thirtieth era on |
| Params.ErasLeft | params.py:27-41 | after any number of eras, the subsidies paid so far plus what the loop would still add are the cap |
| Params.SubsidiesWithinCap | params.py:27-42 | the subsidies of a chain of any length sum to at most MAX_SUPPLY, and to exactly that after thirty eras |
| Pow.RatioLogIsLog | pow.py:96-142 | for every clamped timespan c, the step taken is the floor of the binary logarithm of c / E, and lies in -2..2 |
| Pow.RetargetIsLogRule | pow.py:96-142 | next bits are bits minus the floor of log2(clamped timespan / 241,920), clamped to 1..240 |
| Pow.RetargetBehaviour | pow.py:96-142 | bits stay in 1..240, move by at most 2, never rise when blocks come slower, and stay put on schedule |
| Pow.TargetRoundTrip | pow.py:38-69 | `target_to_bits` gives back the bits of any target made by `bits_to_target` |
| Chain.WorkTimesTarget | node.py:62-64 | the work of a block times its target is 2^256 |
| Chain.WorkIsHashes | node.py:62-64 | so the work of a branch is the sum of 2^256 over its blocks' targets |
| MedianTime.MedianAtLeast | node.py:121-134 | the median reaches v exactly when at most half of the stamps lie below v |
| MedianTime.MedianNeverGoesBack | node.py:121-134 | a block stamped after its parent's median has a median no earlier, also where the window is still short |
| Ledger.Verify | transaction.py:200-256 | one pass with a seen-set accepts exactly: outputs positive and capped, inputs distinct, present, signed low-S by the owner's key, value not exceeded; it raises exactly when the first input that does not pass has a key without a hash, or one ECDSA rejects |
| Ledger.MessageBinds | transaction.py:168-173 | two transactions have the same signed message if and only if they pay the same outputs and take the same outpoints in the same order |
| Ledger.FirstByteCountsMost | transaction.py:243 | the s of a signature is read with its first byte counting most |
| Ledger.ComputeFee | transaction.py:258-263 | the fee is input value minus output value |
| Ledger.ValidateCoinbase | utxo.py:135-162 | accepts exactly: first and only coinbase, committing to the height, with positive capped outputs claiming at most subsidy plus fees |
| CoinSet.UTXOSet.TotalValue | utxo.py:71-72 | the sum over all entries, whatever the order of iteration |
| CoinSet.UTXOSet.ValidateTransaction | utxo.py:81-105 | accepts exactly the transactions whose inputs are present and mature and that verify against the index; raises exactly when that is settled and verification raises |
| CoinSet.UTXOSet.ApplyTransaction | utxo.py:107-116 | spends every input (none of a coinbase) and enters every output with its origin and height |
| CoinSet.UTXOSet.ApplyBlock | utxo.py:118-120 | the whole new index after a block, transaction by transaction |
| CoinSet.UTXOSet.Copy | utxo.py:74-79 | a fresh index with the same contents |
| CoinSet.TotalAfterSpend | utxo.py:107-116 | spending distinct entries lowers the total by exactly their value |
| CoinSet.TotalAfterMake | utxo.py:107-116 | entering the outputs of a new transaction raises the total by exactly their value |
| Merkle.MerkleRoot | merkle.py:31-44 | the in-place padding loop computes the root of the recursive tree; an empty list raises, and so does an id that has to be hashed and is not hex |
| Merkle.MerkleProof | merkle.py:47-71 | the loop collects the siblings on the path from the leaf; an index out of range raises, and so does an id that is not hex |
| Merkle.VerifyMerkleProof | merkle.py:74-84 | for texts of any length: accepts exactly when folding the branch reaches the root, raises at an operand that is not hex, refuses at an unknown side, whichever comes first |
| Padding.RootBindsContents | merkle.py:31-44 | lists of equal length with the same root are equal, despite padding at every level |
| Padding.RootBindsDistinctLists | merkle.py:31-44 | lists of transaction ids without repetitions with the same root are equal, whatever their lengths |
| Padding.SameRootExactly | merkle.py:31-44 | any two lists of ids have the same root if and only if padding fills them up to the same list |
| Padding.SameRootIsPrefix | merkle.py:31-44 | so of two lists with one root the shorter starts the longer |
| Padding.SameRootSameEntries | merkle.py:31-44 | and the longer lists no id that the shorter does not |
| Padding.RootHoldsFilled | merkle.py:31-44 | going down from the root, left for 0 and right for 1, by the binary digits of a place leads to the entry of the filled-up list at that place |
| Padding.RepeatedTailKeepsRoot | merkle.py:36-40 | a family of collisions: repeating the last 2^k of an odd number, above one, of runs of 2^k ids keeps the root |
| Membership.AcceptedIsMember | merkle.py:74-84 | a branch as long as the tree is high that is accepted for a text of 32 bytes proves that these bytes are a member's |
| Membership.OtherLengthsPass | merkle.py:26-28 | the exact limit of that: in a list of two or more ids, texts of n bytes that name no member pass if and only if n is at most 64 and not 32 |
| Membership.ProvableExactly | merkle.py:74-84 | a digest has an accepted branch of length n if and only if it is a node of the tree n levels below the root, so shorter branches prove inner nodes |
| Membership.AcceptedIdIsMember | merkle.py:74-84 | for the id of a transaction an accepted branch of any length proves membership, and then has the height of the tree |
| Membership.BuiltBranchAccepted | merkle.py:47-84 | for any list: every branch built for an id is accepted for it against the root and as long as the tree is high |
| Padding.HeightIsCeilLog2 | merkle.py:47-71 | that height is the binary logarithm of the number of leaves, rounded up |
| Chain.AcceptedFits | node.py:145-183 | a block is accepted exactly when it fits its branch and passes the clock: what fits never raises |
| Chain.BlockStep | node.py:165-183 | checking a block without its coinbase and applying it with the coinbase agree; value changes by the claim minus the fees |
| Chain.BranchHistory | node.py:145-183 | along any valid branch the index remembers enough: no id twice, spent outputs gone, value within the subsidies |
| Chain.NothingTwice | utxo.py:81-116 | no transaction id occurs twice on a branch, no outpoint is spent twice, and a spent one never becomes spendable again |
| Chain.SupplyBounded | node.py:165-183 | what can be spent after any valid branch is at most the subsidies of its heights, and those at most MAX_SUPPLY |
| Chain.MedianMonotone | node.py:162-163 | the median time past never decreases between any two blocks of a valid branch |
| Chain.ValidBits | node.py:108-116 | every block of a valid branch has bits in 1..240 |
| Chain.ExpectedBitsInRange | node.py:108-116 | the bits asked of the next block are in range and differ by at most 2 from its parent's |
| Chain.HashesDistinct | node.py:96-105 | no hash occurs twice on a branch, so walking back ends at genesis |
| Chain.AcceptedHasNoRepeats | node.py:165-183 | no block that fits a valid branch lists a transaction twice |
| Chain.OneBodyPerHeader | block.py:125-132 | at most one body per header can ever be accepted, on whatever branches |
| Chain.TwinsExactly | block.py:125-132 | the bodies that share the header of an acceptable block and match its root are those padding fills up to the same list; each other one repeats transactions of the block behind it, and is refused on every branch |
| Chain.RepeatedTailSharesHeader | block.py:128-132 | such bodies exist: repeating the last 2^k of an odd number, above one, of runs of 2^k transactions gives one |
| Rulebook.ValidExactly | node.py:145-183 | a branch passes validation, block by block with the index, if and only if it keeps the rules said of its blocks alone: genesis, links, targets, the bits rule as a logarithm of timespans, more than half of the last eleven stamps earlier, one coinbase for its height within subsidy and fees, and each transaction allowed where it stands |
| Rulebook.BlockExactly | node.py:145-183 | the same for one block on top of a valid branch |
| Rulebook.AcceptedExactly | node.py:145-183 | with the clock: accepted if and only if it keeps the rules and is stamped at most two hours ahead |
| Rulebook.AllowedExactly | utxo.py:81-105 | at any point of a block the index admits a transaction if and only if each input takes an output that an earlier transaction made, none took, no young coinbase made, with the owner's key and signature, and the outputs are positive and paid for; its fee is what the named outputs bring and it does not pay |
| Rulebook.RaisesExactly | transaction.py:212-256 | where the index raises: the outputs are in order, every input names an unspent, mature output, and the first input that may not be taken, no outpoint being named twice up to it, has a key without a hash, or the owner's key and a canonical signature on which ECDSA has no verdict |
| Rulebook.IndexIsUnspent | utxo.py:107-120 | the index of a valid branch holds exactly what its transactions made and none took, as it was made |
| Rulebook.SpendsAreAuthorised | transaction.py:200-256 | on a valid branch every output taken was made by an earlier transaction for the hash of the key that takes it, and the signature is valid for a message that only transactions with the same outpoints and outputs have |
| Rulebook.CoinbaseSpendsAreOld | utxo.py:98-104 | on a valid branch an output of the coinbase of block i is taken only in a block j with j - i at least the maturity |
| NodeChain.Blockchain.constructor | node.py:68-84 | a new chain holds genesis alone, applied to the index, and meets the invariant |
| NodeChain.Blockchain.Ancestry | node.py:96-105 | the walk terminates and lists the hashes from genesis to the block in order |
| NodeChain.Blockchain.ComputeExpectedBits | node.py:108-116 | parent's bits inside an interval, retargeted over the last 2016 blocks of that very branch at its end |
| NodeChain.Blockchain.ComputeMedianTimePast | node.py:121-134 | the median of the last eleven stamps of the branch, fewer near genesis |
| NodeChain.Blockchain.UtxoForBranch | node.py:137-142 | replaying the ancestry gives the index of the branch |
| NodeChain.Blockchain.ValidateBlock | node.py:145-183 | accepts, refuses or raises exactly as the branch, the clock and the order of the checks require; it raises for bits without a target and where a transaction's verification raises |
| NodeChain.Blockchain.AddBlock | node.py:186-219 | which result code each block gets, by the hashes the branches took: off the tip it reorganises if and only if the sum of 2^256 over targets is larger; what joins the tree and leaves the orphan pool, whether or not an exception ends the retries: what is stored has left the pool, and what an exception leaves waiting for a stored parent waits on the branch of the block that raised; the invariant holds also after an exception, and with it that no pooled transaction is confirmed; the tip moves only to a block of more work |
| NodeChain.Blockchain.StoreBlock | node.py:199-219 | fast and slow path both leave tip, index and pool as the code promises: extend, reorganise if and only if the new branch took more hashes, or leave a side branch alone; no stored branch took more than the active one |
| NodeChain.Blockchain.ReorgTo | node.py:221-251 | the index is the replay of the new branch, the pool is rebuilt as `PoolRebuilt` describes and holds nothing the new branch confirmed |
| NodeChain.PoolRebuilt | node.py:232-251 | after a reorganisation the pool holds exactly: pooled before or confirmed on the old chain and no coinbase, not on the new chain, valid on it at the next height |
| Rulebook.ReorgPoolExactly | node.py:221-251 | said without the index: after a reorganisation a transaction is pooled if and only if it was pooled or stood behind a coinbase of the old branch, is not on the new one, and may be in its next block |
| NodeChain.Blockchain.RemoveBlockTxsFromMempool | node.py:253-255 | exactly the block's own transactions leave the pool |
| NodeChain.Blockchain.TryConnectOrphans | node.py:257-267 | without an exception no orphan is left whose parent arrived; each one taken out was stored or refused; an exception comes from exactly one of them, whose validation raises on its parent's branch, and leaves behind only orphans that wait on that branch |
| NodeChain.Blockchain.AddToMempool | node.py:269-287 | accepts exactly: new, room in the pool, valid and mature on the active branch at the next height, minimum fee; raises exactly where verification does; the invariant holds, so nothing confirmed is ever pooled |
| Rulebook.PoolExactly | node.py:269-287 | said without the index: pooled if and only if new, below 5,000 entries, allowed by the rules in the next block, and leaving a fee of at least 10 |
| NodeChain.Blockchain.GatherBlockTransactions | node.py:289-302 | picks greedily in pool order, each transaction against the index left by those before, and sums their fees |
| NodeChain.EveryStateKeeps | node.py:186-251 | in every state: heights are those of the ancestry, work is its hashes, no block took more than the tip, the cached index is the full replay, its value is within the subsidies and the cap |
| Tree.GraftIsSound | node.py:199-202 | storing a validated block keeps every block on a valid branch with the right height and work |
| Tree.HeaviestAfter | node.py:204-216 | the rule for moving the tip keeps it a block of greatest work |
| Delivery.DeliverAll | node.py:186-267 | feeding any list of blocks raises only when some delivered block raises on a branch of delivered blocks, and always when that is unavoidable; otherwise the node ends settled |
| Delivery.StoredExactly | node.py:186-267 | without twins, a settled node stores exactly the blocks whose whole ancestry was delivered, is valid and passes the clock |
| Delivery.OrderDoesNotMatter | node.py:186-267 | without twins, nodes settled on the same blocks hold the same tree, orphans of the same hashes, and tips of equal work |
| Delivery.DeliverToBoth | node.py:186-267 | two new nodes given the same blocks in any orders and repetitions both raise, or agree on tree, orphan hashes and tip work, under the exact condition of `Orders.OrderIsIrrelevantExactly` |
| Delivery.SettledMeansAvoided | node.py:145-267 | a node that digested all its blocks had an exception it could avoid: no block sat in a trap, raising on a branch nothing could displace |
| Orders.OrderIsIrrelevantExactly | node.py:186-267 | every order gives the same outcome if and only if: nothing delivered raises on a branch of delivered blocks and no acceptable block with a parent other than genesis has a delivered twin; or an exception is unavoidable. Otherwise there are two orders no two runs of which agree |
| Orders.SomeOrderRaises | node.py:186-267 | some run raises if and only if some delivered block raises on a branch of delivered blocks, and then there is an order all whose runs raise |
| Orders.EveryOrderRaises | node.py:186-267 | every run raises if and only if some delivered block does so on a safe branch and no other body under its header can help; otherwise there is an order no run of which raises |
| Witnesses.OrderCanMatter | node.py:190-193 | there are rules and blocks whose order of delivery matters: an orphan, a twin of it, and their parent |
| Witnesses.RaiseStrandsOrphan | node.py:257-267 | of two raising orphans of one parent, one stays in the pool though its parent is stored |
| Witnesses.OrphanCanBeStranded | node.py:186-267 | a delivery exists, from a new node, that ends so |
| Stranding.SomeOrderStrands | node.py:257-267 | some delivery to a new node leaves an orphan behind its stored parent if and only if some delivered block raises on a branch of delivered blocks, and another delivered block waits for a block of that branch other than genesis |
| Catching.DeliverAnyway | full_node.py:229-238 | a caller that catches exceptions: every delivered block is stored, waits, or was refused or raised under some body on its parent's branch, and an orphan of a stored parent was left there by an exception |
| Catching.CaughtIrrelevantExactly | full_node.py:229-238 | such a caller ends with the same tree in every order if and only if no acceptable block with a parent other than genesis has a delivered twin, and none can be left behind by an exception |
| Store.SaveChain | store.py:113-122 | every stored block, side branches included, is written under its hash with its height; the count is returned |
| Store.BlockStore.LoadBlocksInHeightOrder | store.py:93-101 | all rows, each block once, in order of height and, among equals, of the hash |
| Store.SavedAgain | store.py:113-122 | saving a chain that has grown since the last time leaves exactly the rows of the grown chain |
| Store.LoadChain | store.py:125-137 | any table replayed: it raises if and only if some stored block raises on a branch of stored blocks, otherwise the chain has settled in the table's blocks |
| Store.SavedNeverRaises | store.py:113-137 | replaying what a chain was saved as never raises, whatever the clock |
| Store.ReloadedExactly | store.py:125-137 | what a replay of a saved chain stores: exactly the blocks whose whole ancestry passes the clock, on the branches they had |
| Store.SaveAndLoad | store.py:113-137 | saving, once or again, and reloading never raises and gives back exactly the blocks whose ancestry passes the clock; it gives the same tree if and only if no stored stamp is beyond the clock, and then no orphans and a tip of the same work |
| Mining.Mine | pow.py:82-93 | finds a nonce if and only if one below the limit meets the target, and returns the least |
| Mining.PickedPass | node.py:289-302 | behind any coinbase, what block assembly picks passes the transaction checks with the same fees |
| Mining.PicksInTurn | node.py:289-302 | block assembly takes, candidate after candidate, exactly those that the rules allow behind the ones taken before |
| Mining.MinerIsPaid | utxo.py:107-116 | the outputs of the coinbase of the last block of a valid branch are in the index |
| Mining.FeesWithinValue | node.py:289-302 | the fees picked never exceed what can be spent on the branch |
| Mining.AssembledFits | node.py:332-354 | an assembled block passes validation if and only if its nonce meets the target, it is not too big, and subsidy plus fees is positive |
| Mining.TipHasNoChild | node.py:332-354 | no child of the tip is stored, so a mined block is never a duplicate |
| Mining.MinedFate | node.py:332-354 | what becomes of a mined block: stored under those conditions and the future bound, invalid otherwise |
| Mining.Node.MineBlock | node.py:332-354 | returns the block, with the least nonce that meets the target, exactly when there is one and validation has nothing left to refuse, unless an orphan that waits for it raises; the block keeps the rules, pays subsidy and fees to the miner in one output, takes the candidates the rules allow one after the other, and carries the extra nonce, or else the node's id, and the earliest stamp; it then is the tip when no orphan waits for it |
| Spv.SPVClient.AddHeader | spv.py:87-98 | appends exactly the headers that link to the last one, and keeps the index exact |
| Spv.SPVClient.VerifyPaymentWithConfirmations | spv.py:123-142 | true exactly when the block is known, the branch is accepted against its root, and it is deep enough; raises exactly at an operand that is not hex |
| Spv.BuildProofBundle | spv.py:144-155 | raises exactly for a transaction not in the block; otherwise the branch is accepted and as long as the tree is high |
| Spv.FollowBranch | spv.py:87-98 | every header of a valid branch is accepted in order |
| Spv.IndexIsExact | spv.py:109-121 | a client that followed a branch finds block i at index i, with length minus i confirmations, and no other hash |
| Spv.ProvePayment | spv.py:123-155 | the node's proof for any transaction of its active chain verifies, with node height minus block height plus 1 confirmations |
| Spv.AcceptedPaymentIsInBlock | spv.py:123-133 | conversely a branch of the tree's height accepted against the header for a text of 32 bytes proves that these are the id of a transaction of the block |
| Spv.IdProvableExactly | spv.py:123-133 | against the header alone, whatever the length of the branch: some branch is accepted for the id of a transaction if and only if it is one of the block's |
| Spv.OtherLengthsPass | spv.py:123-133 | in a block of two or more transactions texts of n bytes that name none of them pass as well if and only if n is at most 64 and not 32 |
| Bits.Convert | wallet.py:158-178 | the masked accumulator loop computes the regrouping of the bit stream, with zero padding or the check for it |
| Bits.RegroupStream | wallet.py:158-178 | a bit stream cut into groups of its own width is the list it came from |
| Bits.StreamRegroup | wallet.py:158-178 | a stream of whole groups is the stream of its groups |
| Checksum.ComputePolymod | wallet.py:110-118 | the loop over the symbols computes the register of the checksum |
| Checksum.StepLinear | wallet.py:110-118 | one step is linear over exclusive or, in register and symbol together |
| Checksum.StepInjective | wallet.py:110-118 | one step loses nothing: two registers that take in the same symbol and step to the same register are the same |
| Checksum.OneSymbolMatters | wallet.py:110-127 | changing one symbol anywhere changes the register at the end |
| Checksum.ChecksumUnique | wallet.py:125-132 | six symbols check if and only if they are the created checksum |
| Detection.StepIsDivision | wallet.py:110-118 | one step multiplies by x, adds the symbol and keeps the remainder by x^6 + 29 x^5 + 22 x^4 + 20 x^3 + 21 x^2 + 29 x + 18 over the field of 32 elements |
| Detection.TwoSymbolsMatter | wallet.py:110-127 | changing two symbols at most 88 places apart always changes the register at the end |
| Address.EncodeThenDecode | wallet.py:135-155 | an encoded text decodes to what was encoded if and only if the prefix is printable ASCII, in lower case and not empty, and the text has at most 90 characters |
| Address.DecodeThenEncode | wallet.py:135-155 | re-encoding a decoded text under its own prefix gives it back in lower case |
| Address.OneSubstitutionDetected | wallet.py:140-155 | replacing any one symbol after the separator by another makes decoding fail |
| Address.TwoSubstitutionsDetected | wallet.py:140-155 | replacing any two symbols after the separator makes decoding fail too |
| Address.HrpExpandSpells | wallet.py:121-122 | the expansion lists the high bits of every character of the prefix, a zero, and the low five of each |
| Address.EightToFive | wallet.py:158-191 | bytes regrouped into symbols with padding regroup back into the same bytes |
| Address.SymbolsSpellBytes | wallet.py:158-191 | read as one number to the base 32 the symbols are the bytes read to the base 256, times the power of two of the padding |
| Address.FiveToEight | wallet.py:158-205 | symbols that regroup into bytes are the regrouping of those bytes |
| Address.AddressRoundTrip | wallet.py:181-205 | a hash survives its address if and only if it has at most 49 bytes |
| Address.AddressCanonical | wallet.py:181-205 | every address that parses is, in lower case, the address of what it parses to |
| Wallets.LowSVerifies | transaction.py:34-49 | a normalised signature always meets the low-S bound and stays valid |
| Wallets.SignInput | transaction.py:179-193 | writes key and signature of one input and changes no message any input signs |
| Wallets.SigningFormIgnores | transaction.py:168-173 | keys and signatures are not part of the signed message, so signing one input never invalidates another |
| Wallets.SelectCoins | wallet.py:307-318 | the selection loop picks what `PickCoins` describes and sums it |
| Wallets.PickIsFirstFit | wallet.py:307-318 | that is the owned outputs up to the first that reaches the target, or all of them if none does |
| Wallets.Wallet.NewKey | wallet.py:236-243 | files the key under its hash and returns the address of this hash under the prefix moon, which parses back to it |
| Wallets.Wallet.CreateTransaction | wallet.py:282-342 | when it raises; it takes the selected outputs in order; output 0 pays the amount to the recipient's hash, and there is an output 1 if and only if more was selected than amount and fee, which pays the difference to the given change address or to the fresh key; what it signs; a key is made, and filed with the address of its hash, only for change without an address; the payment joins the history |
| Wallets.CreatedPays | wallet.py:282-342 | a created transaction spends amount plus fee plus change, each input signed by its owner |
| Wallets.WalletTxVerifies | wallet.py:282-342 | such a transaction verifies against the index and its fee is exactly the requested one |
| Wallets.WalletTxAccepted | node.py:269-287 | built from the chain's own mature outputs, the pool accepts it given the minimum fee, room, and a new id |
| Script.ParseScriptSigPushes | swap_verifier.py:192-214 | the cursor loop reads the pushes one after the other and stops at the first other opcode |
| Script.PushesRoundTrip | swap_verifier.py:86-93 | any list of items of at most 255 bytes survives writing and parsing |
| Script.LongPush | swap_verifier.py:192-214 | items of up to 65,535 bytes are read behind a length of two bytes, the low one first |
| Script.EncodeScriptNum | swap_verifier.py:96-110 | the shift loop and the sign fix give the signed little-endian encoding |
| Script.ScriptNumRoundTrip | swap_verifier.py:96-110 | an encoded number reads back, so no two numbers share an encoding |
| Script.ScriptNumMinimal | swap_verifier.py:96-110 | no shorter byte string reads as the same number |
| Script.RedeemScriptInjective | swap_verifier.py:113-147 | a redeem script determines hashlock, recipient, refund key and locktime |
| Interpreter.WhoMaySpend | swap_verifier.py:113-147 | run as a script, the redeem script is unlocked if and only if: by a signature under the recipient's key and a preimage of the hashlock with the first branch chosen, or by a signature under the refund key with the second chosen, the locktime reached and short enough to be read |
| Swap.FindPreimage | swap_verifier.py:172-189 | an item that hashes to the hashlock and is not empty, or none exists |
| Swap.VerifySwap | swap_verifier.py:354-459 | the early-return code reaches the decision `Decision` reads off both chain views |
| Swap.DecisionTable | swap_verifier.py:354-459 | when and why a verdict settles, reveals, expires or leaves alone: settled if and only if both legs are funded in full at depth and both spends at depth reveal one secret |
| Swap.SettledExactly | swap_verifier.py:354-459 | a locked swap nothing was known of is settled at once if and only if in one view each leg pays a form of its own script, base the amount and quote the price, at depth, and both were spent at depth with one first secret |
| Swap.ExpiredExactly | swap_verifier.py:354-459 | such a swap expires if and only if both outputs pay and: the quote output is unspent at its locktime, or spent without a secret, or spent at depth for a secret while the base output was spent without it |
| Atomicity.LegsUnlock | swap_verifier.py:354-459 | which columns of a swap say who may spend its two outputs, and when |
| Atomicity.QuoteSpendHandsOver | swap_verifier.py:172-189 | whoever spends the quote output hands over a secret with which the base output can be claimed at any time, or takes a refund, which the locktime forbids before; the verifier tells which, unless the secret is empty |
| Atomicity.BaseRefundIsLater | exchange.py:472-572 | without the secret the base output cannot be spent until six hours after the quote output may be refunded |
| Atomicity.LateLocksNeverOpen | swap_verifier.py:113-147 | a positive locktime can be reached at all if and only if it is below 2^39 |
| Swap.VerdictMovesForward | swap_verifier.py:354-459 | a verdict never takes a swap back and never touches a settled or expired one |
| ExchangeServer.Server.InsertOrder | exchange.py:190-249 | inserts exactly the orders with a known pair, positive decimals, addresses of 6 to 120 characters without whitespace and fewer than 20 open orders at the address |
| ExchangeServer.PosDecimalExactly | exchange.py:162-176 | a decimal is let through if and only if it is positive, below 10^21 and written with at most twenty places |
| ExchangeServer.Server.TryMatch | exchange.py:252-302 | matches the order with a best crossing one, or leaves the book alone if none crosses |
| ExchangeServer.BestUpToRounding | exchange.py:266-291 | a better price than the chosen one can exist only where rounding makes the two equal |
| ExchangeServer.Server.CreateOrder | exchange.py:190-302 | once it returns with no other order in flight, every open bid is below every open ask of the same pair from another address |
| ExchangeServer.Server.CancelOrder | exchange.py:338-358 | cancels exactly an open order shown its own token, which is not empty |
| ExchangeServer.Server.InitSwap | exchange.py:472-572 | registers a swap exactly for a matched order without one, a fresh 32-byte hashlock, hex keys, a six-hour gap and locktimes the table can hold; each key, hashlock and locktime goes to its own column, the buy and the sell order to theirs |
| ExchangeServer.RestingOrderSetsPrice | exchange.py:541-553 | a swap executes at the resting order's price for the smaller amount, whichever party registers it |
| ExchangeServer.Server.ReportFunding | exchange.py:575-619 | notes the transaction of one leg for exactly the order's own swap while it awaits funding, and moves it only forward |
| ExchangeServer.ReportedColumns | exchange.py:575-619 | a report writes the column of its own leg and nothing else but the status, which says which legs are reported |
| ExchangeServer.Server.ApplySwapVerification | exchange.py:646-684 | writes the verdict and settles both orders with the swap; the tables stay in order when the view supports the verdict |
| ExchangeServer.Server.RunVerificationPass | swap_verifier.py:462-486 | judges every watchable swap by one view, which joins `passes`; raises if and only if one of them has keys that give no script, keeping verdicts already written |
| ExchangeServer.Server.Run | exchange.py:190-684 | over any sequence of calls the tables keep their invariant, no swap is lost, goes back, or changes once settled or expired, and `passes` grows by exactly the views of the pass calls; a jammed swap stays as it is and makes every later pass raise |
| ExchangeServer.JammedExactly | swap_verifier.py:462-486 | a registered swap jams the passes if and only if it is locked and one of its keys has an odd length |
| ExchangeServer.SettlementIsProven | exchange.py:646-684 | for a settled swap passes have seen both outputs funded with its own scripts and both spent at depth revealing one secret behind its hashlock; its orders are settled exactly when it is |
| ExchangeServer.RunFromStart | exchange.py:190-684 | whatever calls a new server gets, a swap is settled only if two of these calls are passes whose views prove it |
| ExchangeServer.OrderSettlesWithItsSwap | exchange.py:622-684 | an order is settled if and only if a settled swap names it |
| ExchangeServer.SwapTermsAreFair | exchange.py:472-572 | price between ask and bid, amount within both orders, six hours between the locktimes, status before verification fixed by the funding reports, no order or hashlock in two swaps |
| ExchangeServer.VerdictKeepsRow | swap_verifier.py:354-459 | writing a verdict keeps the row's terms, moves it forward, and is backed by the view it came from |
| Exchange.MatchKeepsBook | exchange.py:252-302 | matching keeps the pairing symmetric, of opposite sides and different addresses, with bid at or above ask |
| Exchange.SettledStep | exchange.py:646-684 | settling a swap with its two orders keeps every other swap and order as it was, and the tables in order |
| Exchange.ScriptsNeedEvenKeys | exchange.py:428-437 | a registered swap has both its scripts if and only if its four keys have even lengths, which registration does not ask |

## Left out

- NodeChain.Blockchain.AddBlock: when orphans wait for the block, the contract gives the tree, the orphan pool, the result code, a tip of greatest work that moved only for more work, and a pool of signed, unconfirmed transactions; but not which of several heavier blocks of equal work becomes the tip, nor which pooled transactions the chain of activations returns or drops. Both depend on the order of a dictionary.
- NodeChain.Blockchain.TryConnectOrphans: the retries of orphans call each other, and the interpreter's recursion limit makes a chain of a few hundred orphans raise; recursion is unbounded here.
- Delivery.OrderDoesNotMatter: two nodes agree on the work of the tip, not on the tip itself among equals.
- NodeChain.Blockchain.AddToMempool: pooled transactions may become invalid later; the extend path drops only the block's own, and a reorganisation rechecks neither the fee nor the size of the pool, so neither is claimed.
- Stranding.SomeOrderStrands: an order of delivery together with an order in which waiting orphans are retried; the source retries in the order its dictionary lists them. The same holds for Catching.CaughtIrrelevantExactly and the loss it names.
- Merkle.VerifyMerkleProof: a digest is spelled by its own lower-case digits; a text that spells one in capitals, or a hash that equals that of other contents (a node's bytes that are also a serialised transaction), does not occur.
- Store.SaveAndLoad: the reloading chain has the same maturity.
- Mining.Node.MineBlock: when an orphan that waits for the mined block raises, the block is stored but not returned.
- Interpreter.WhoMaySpend: only the opcodes of the redeem script, the end of a witness script, and no limits on sizes; of what may stand below in a legacy P2SH input nothing is said.
- Address.TwoSubstitutionsDetected: BIP 173 promises that up to four wrong symbols are detected; two are proved.
- Wallets.LowSVerifies: signing is assumed to give r and s below the group order; for an s above the order the source fails on a negative number.
- ExchangeServer.Server.TryMatch: best means best after the float cast, with `cast` left open.
- ExchangeServer.Server.ApplySwapVerification: like the source it does not check that a status moves forward; the invariant is promised for verdicts the caller's view supports.
- ExchangeServer.Server.RunVerificationPass: one pass is atomic and sees both chains at one time; passes that overlap are not modelled.
- Swap.VerifySwap: the expected quote amount is `product` of amount and price, left open; in the source it is their product rounded to 28 significant digits. The two chain adapters are arbitrary functions; how `MoonNodeAdapter` scans a node is not part of this model.
- Hash functions, key derivation, JSON, SQLite and ECDSA themselves.
- The spelling of input text: hex with prefix, blanks or upper case, and how a decimal is read from its text.
- Peer-to-peer networking, gossip, sockets, threads, RPC, web pages and graphical interfaces: plumbing around this core.
- HD wallets, base58, balances and imports of private keys: bookkeeping beside the builder.
- Order listings, last price and settlement hints: read-only reports.
- Block and transaction dictionaries (`to_dict`, `from_dict`): a field-by-field copy.
