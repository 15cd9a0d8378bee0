# The data structures and the arithmetic under the 5G core

This project models the engine that the Open5GS core runs on, and proves what its parts are for:

- the red-black tree and the timer manager on top of it (`Rb*.dfy`, `Timer*.dfy`): nodes on the
  heap with parent links, proved against a ghost tree and, for the timers, against a sorted queue;
- the blocking queue (`QueueProtocol.dfy`): a transition system of a mutex, two conditions and any
  number of threads, with spurious wake-ups and timeouts;
- big-integer arithmetic (`Ecc*.dfy`): digit arrays against the integers they stand for, with the
  prime of secp256r1 proved prime (`PrimeP256.dfy`);
- X25519 in signed limbs (`X25519*.dfy`, `TwosComplement.dfy`) against section 5 of RFC 7748
  (`Rfc7748.dfy`), with 2^255 - 19 proved prime (`PrimeCertificate.dfy`, `PowerChain.dfy`,
  `Primes.dfy`);
- the chained hash table (`Hash.dfy`, `HashTable.dfy`) against a finite map;
- the TLV codec and the messages built with it (`Tlv*.dfy`) on nodes from the ring-buffer pool;
- the option parser (`Getopt.dfy`) and the block-cipher modes (`Aes*.dfy`, after sections 6.2 and
  6.5 of NIST SP 800-38A) over an arbitrary block permutation.

`Arith.dfy` and `Sequences.dfy` hold what several parts share. Code that works in place is modelled
by classes and arrays, each method with a contract that ties the new state to a function of the old
one; the theorems are lemmas about those functions. Where a comment in the source and its code
differ, the model follows the code. `dafny verify dfyconfig.toml` checks everything.

A method is proved against a function of its inputs or of the old state. What such a function means is
then stated apart from its definition: by what the callers see (`TimerQueue.DueAfter`,
`QueueProtocol.MovedExactly`, `Getopt.OptionRequires`), bit by bit or byte by byte (`X25519Scalar.dfy`,
`AesLaws.dfy`, `TlvLaws.dfy`), or by what it is for (`RbHeight.dfy`).

## Model

| member | source | states |
|---|---|---|
| `RbTree.RbTree.Delete` | lib/core/ogs-rbtree.c:323-372 | deleting any node of a valid red-black tree ends in a valid tree whose in-order sequence is the old one without that node |
| `RbTree.RbTree.DeleteColor` | lib/core/ogs-rbtree.c:212-321 | from a subtree that is one black short, possibly empty, the loop ends in a valid tree with the same in-order sequence |
| `RbTree.RbTree.DeleteReads` | lib/core/ogs-rbtree.c:219-222 | the sibling that the deletion loop dereferences always exists, and the links it reads are those of the tree |
| `RbTree.RbTree.InsertColor` | lib/core/ogs-rbtree.c:92-210 | from a freshly linked red leaf the loop ends in a valid tree with the same in-order sequence; the grandparent always exists |
| `RbTree.RbTree.InsertReads` | lib/core/ogs-rbtree.c:99-104 | a red parent has a parent, so the grandparent assertion never fails |
| `RbTree.RbTree.LinkNode` | lib/core/ogs-rbtree.h:52-61 | a new red leaf in an empty place, with nothing else changed |
| `RbTree.RbTree.Rotate` | lib/core/ogs-rbtree.c:55-90 | the writes of a rotation turn the memory of one tree into the memory of the rotated tree, in place, for either side |
| `RbTree.RbTree.ChangeChild` | lib/core/ogs-rbtree.c:22-33 | the link that pointed at the old child, or the root, points at the new one; nothing else changes |
| `RbTree.RbTree.ReplaceNode` | lib/core/ogs-rbtree.c:35-42 | the new child takes the place of the old one, with its parent link |
| `RbTree.RbTree.SpliceSuccessorAt` | lib/core/ogs-rbtree.c:343-368 | a node with two children gives its place and colour to its in-order successor |
| `RbTree.RbTree.SpliceNode` | lib/core/ogs-rbtree.c:331-342 | a node with a missing child gives its place to the other child |
| `RbTree.RbTree.Min` | lib/core/ogs-rbtree.h:66-75 | the leftmost node of a subtree, with the path that leads to it |
| `RbTree.RbTree.First` | lib/core/ogs-rbtree.c:374-384 | the first node in order, or null for the empty tree |
| `RbTree.RbTree.Next` | lib/core/ogs-rbtree.c:400-416 | the in-order successor of any node, or null at the last |
| `RbTree.RepPlug` | lib/core/ogs-rbtree.c:22-42 | a tree in memory is a subtree in memory together with its path in memory, for every subtree |
| `RbShape.RotateSameOrder` | lib/core/ogs-rbtree.c:55-90 | a rotation keeps the in-order sequence, whatever the colours |
| `RbShape.InsertFlip` | lib/core/ogs-rbtree.c:107-122 | red uncle: the loop invariant holds two levels further up |
| `RbShape.InsertTurn` | lib/core/ogs-rbtree.c:125-138 | inner child: the rotation at the parent keeps the loop invariant |
| `RbShape.InsertFinish` | lib/core/ogs-rbtree.c:140-152 | outer child: the rotation at the grandparent removes the only red-red edge |
| `RbShape.InsertDone` | lib/core/ogs-rbtree.c:208-209 | when the loop ends, blackening the root gives a red-black tree with the same order |
| `RbShape.DeleteRedSibling` | lib/core/ogs-rbtree.c:222-236 | case 1 keeps the loop invariant and gives a black sibling |
| `RbShape.DeleteFlip` | lib/core/ogs-rbtree.c:237-250 | case 2 moves the missing black one level up |
| `RbShape.DeleteTurn` | lib/core/ogs-rbtree.c:252-269 | case 3 keeps the loop invariant and makes the far nephew red |
| `RbShape.DeleteFinish` | lib/core/ogs-rbtree.c:271-287 | case 4 pays the missing black: the whole tree obeys both laws again |
| `RbShape.DeleteDone` | lib/core/ogs-rbtree.c:319-320 | the loop ends at the root or at a red node, and blackening it restores both laws |
| `RbShape.SpliceOut` | lib/core/ogs-rbtree.c:331-342 | taking out a red node with a missing child leaves a red-black tree, a black one exactly the invariant of the deletion loop |
| `RbShape.SpliceSuccessor` | lib/core/ogs-rbtree.c:343-371 | the same when the successor takes over the place and colour of a node with two children |
| `RbShape.PlugBalanced` | lib/core/ogs-rbtree.c:212-321 | equal black heights in the whole tree are equal black heights in the subtree and along its path |
| `RbShape.InOrderNoDuplicates` | lib/core/ogs-rbtree.c:400-416 | a tree lists each of its nodes once |
| `RbHeight.LogarithmicHeight` | lib/core/ogs-rbtree.c:92-372 | what insertion and deletion keep bounds the height: 2 to the height is at most the square of the number of nodes plus one |
| `RbHeight.EnoughNodes` | lib/core/ogs-rbtree.c:212-321 | a tree of black height b has at least 2^b - 1 nodes |
| `RbHeight.AlternateColors` | lib/core/ogs-rbtree.c:92-210 | no path is more than twice as long as its black nodes, and one more below a red root |
| `Timer.TimerMgr.Start` | lib/core/ogs-timer.c:109-124 | the timer runs until the clock plus the duration, in the one place behind every entry up to that time and before all later ones; every other timer keeps its timeout and its running flag; restarting moves the timer |
| `Timer.TimerMgr.AddTimerNode` | lib/core/ogs-timer.c:30-53 | the search and the recolouring insert the timer into the sorted queue that the tree holds |
| `Timer.TimerMgr.FindPlace` | lib/core/ogs-timer.c:40-49 | the empty place behind every timeout that is not later and before all later ones |
| `Timer.TimerMgr.Stop` | lib/core/ogs-timer.c:126-138 | the timer leaves the queue if it is running; the entries of all others and their order stay as they are |
| `Timer.TimerMgr.Add` | lib/core/ogs-timer.c:76-95 | a stopped timer from the pool, or null when the pool is empty |
| `Timer.TimerMgr.DeleteTimer` | lib/core/ogs-timer.c:97-107 | the timer is stopped and goes back to the pool |
| `Timer.TimerMgr.NextTimeout` | lib/core/ogs-timer.c:140-158 | -1 exactly when nothing runs, 0 exactly when a running timer is due, otherwise the least remaining time over all running timers |
| `Timer.TimerMgr.CollectDue` | lib/core/ogs-timer.c:170-179 | the list of exactly the due timers, in timeout order |
| `Timer.TimerMgr.Expire` | lib/core/ogs-timer.c:160-189 | exactly the timers due at the sampled clock fire, in timeout order, whatever their callbacks start or stop; a fired timer runs afterwards if and only if the last thing its own or a later callback did to it was a start, until the time of that start; every other timer is as the callbacks left it |
| `Timer.TimerMgr.RunCallback` | lib/core/ogs-timer.c:183-188 | a callback that starts and stops timers keeps the manager valid |
| `Timer.TimerMgr.Fire` | lib/core/ogs-timer.c:184-188 | one turn: the timer is stopped before its callback runs |
| `TimerQueue.InsertPlace` | lib/core/ogs-timer.c:40-49 | an entry lands behind every timeout that is not later, and the queue stays sorted: equal timeouts keep start order |
| `TimerQueue.DropPlace` | lib/core/ogs-timer.c:126-138 | dropping a timer takes out its one entry and nothing else |
| `TimerQueue.ApplyMeans` | lib/core/ogs-timer.c:30-53 | starting arms the timer once, at the clock plus the duration and behind equal timeouts; stopping leaves exactly the other timers |
| `TimerQueue.DropOthers` | lib/core/ogs-timer.c:126-138 | dropping a timer leaves exactly the others, in their order |
| `TimerQueue.DueExactly` | lib/core/ogs-timer.c:172-178 | the due entries are a prefix of the queue, and exactly those whose time has come |
| `TimerQueue.FiredOnce` | lib/core/ogs-timer.c:160-189 | a timer fires if and only if it is running with a timeout that is not later than the clock, and it fires once |
| `TimerQueue.FireAllRunning` | lib/core/ogs-timer.c:181-188 | after any turns a timer runs exactly when the last thing a callback did to it was a start, or nothing was done and it ran before |
| `TimerQueue.DueAfter` | lib/core/ogs-timer.c:181-188 | for every k, the k-th due timer runs after all turns if and only if the last operation on it, by its own callback or a later one, is a start, and then holds the timeout of that start |
| `TimerQueue.OtherAfter` | lib/core/ogs-timer.c:181-188 | a timer that is not due runs after all turns as the last operation of a callback on it says, or as before if there is none |
| `TimerQueue.TurnsInOrder` | lib/core/ogs-timer.c:181-188 | the turns follow one another |
| `TimerQueue.StepsInOrder` | lib/core/ogs-timer.c:183-188 | so do the operations of one callback |
| `TimerQueue.RestartsItself` | lib/core/ogs-timer.c:181-188 | a timer that its own callback starts again runs until the new time |
| `TimerQueue.RunningAtTurn` | lib/core/ogs-timer.c:181-188 | a due timer still runs at its turn if and only if the last thing that earlier callbacks did to it was not a stop; it fires either way |
| `TimerQueue.StoppedTimerStillFires` | lib/core/ogs-timer.c:160-189 | two due timers, the first of which stops the second: both fire |
| `TimerQueue.QuietExpiry` | lib/core/ogs-timer.c:160-189 | with callbacks that touch no timer, expiry removes exactly the due entries |
| `QueueProtocol.Fifo` | lib/core/ogs-queue.c:113-265 | in every run of any number of threads the popped values are a prefix of the pushed ones, what lies between is in the ring, and in = (out + nelts) mod bounds |
| `QueueProtocol.NoLostWakeUp` | lib/core/ogs-queue.c:113-265 | in every run, while a popper sleeps unsignalled there are at most as many elements as signalled poppers still to run; dually for pushers and free slots |
| `QueueProtocol.ReadyGoesOn` | lib/core/ogs-queue.c:157-265 | in every run, a thread that holds the mutex and has found room or an element can finish its operation, within the ring |
| `QueueProtocol.MovedExactly` | lib/core/ogs-queue.c:113-265 | in every run, a thread that comes to return OK has appended its own value to those pushed, or the oldest element to those popped, and no other step changes either |
| `QueueProtocol.TryNeverWaits` | lib/core/ogs-queue.c:122-126 | in every run, no operation without a wait is ever asleep, and only operations with a time limit have timed out |
| `QueueProtocol.StepOutcome` | lib/core/ogs-queue.c:123-156 | in every state, where a step leads: with room or an element the operation goes on; RETRY is for an operation that must not wait on a full or an empty queue, and the other answers only for those that waited |
| `QueueProtocol.StepReturn` | lib/core/ogs-queue.c:117-121 | in every state, how an operation begins, is answered once the queue is terminated, and returns what it decided |
| `QueueProtocol.StepTerm` | lib/core/ogs-queue.c:282-307 | termination is set by one kind of step and everybody is woken by one kind; nobody else is woken but by a signal |
| `QueueProtocol.NobodySleepsAfterTerm` | lib/core/ogs-queue.c:282-307 | once the termination call has returned, no thread is asleep, then or after any further steps, whatever it had read before |
| `QueueProtocol.StepKeeps` | lib/core/ogs-queue.c:113-307 | every step of every thread keeps the ring, the mutex, the waiter counters, the wake-up bound and the termination flags consistent |
| `QueueProtocol.ReadyPushCounts` | lib/core/ogs-queue.c:158-169 | storing an element and signalling a popper keeps the wake-up bound |
| `QueueProtocol.ReadyPopCounts` | lib/core/ogs-queue.c:252-263 | loading an element and signalling a pusher keeps the wake-up bound |
| `QueueProtocol.BroadcastKeeps` | lib/core/ogs-queue.c:282-293 | waking everybody keeps all invariants |
| `EccVli.Add` | lib/crypt/ecc.c:265-279 | the sum with its carry, exactly, also when the result is an operand |
| `EccVli.Sub` | lib/crypt/ecc.c:282-296 | the difference with its borrow, exactly |
| `EccVli.Cmp` | lib/crypt/ecc.c:217-232 | the sign of the difference of the two values |
| `EccVli.LShift` | lib/crypt/ecc.c:235-247 | the product with a power of two, with the bits shifted out as carry |
| `EccVli.RShift1` | lib/crypt/ecc.c:250-262 | half the value, rounded down |
| `EccVli.NumDigits` | lib/crypt/ecc.c:173-183 | the index above the most significant nonzero digit |
| `EccVli.NumBits` | lib/crypt/ecc.c:186-204 | the bit length of the value |
| `EccVli.IsZero` | lib/crypt/ecc.c:153-164 | whether the value is zero |
| `EccVli.Set` | lib/crypt/ecc.c:207-214 | the digits are copied |
| `EccDigits.ValueInjective` | lib/crypt/ecc.c:217-232 | a value has one digit representation of each length |
| `EccDigits.ValueCompare` | lib/crypt/ecc.c:217-232 | the most significant differing digit decides the comparison |
| `EccMult.Mult` | lib/crypt/ecc.c:301-324 | the column-wise product is the product of the values, for any number of digits |
| `EccMult.Square` | lib/crypt/ecc.c:327-353 | the squaring routine computes the product of the value with itself |
| `EccMult.ColumnsProduct` | lib/crypt/ecc.c:301-324 | the columns at their weights add up to the product, for all operands |
| `EccMult.Accumulate` | lib/crypt/ecc.c:315-317 | the carry found by comparing with the product is the carry of the 128-bit sum |
| `EccMult.SumColumn` | lib/crypt/ecc.c:311-317 | one column of the product is accumulated in three words without overflow |
| `EccMult.SumSquareColumn` | lib/crypt/ecc.c:335-346 | one column of the square, with the mirrored terms doubled, is the same column of the product |
| `EccP256.MmodFast` | lib/crypt/ecc.c:548-627 | for every 512-bit number the reduction ends with the remainder modulo the prime of secp256r1 |
| `EccP256.PrimeFormula` | lib/crypt/ecc.c:41 | the modulus is 2^256 - 2^224 + 2^192 + 2^96 - 1 |
| `EccP256.ReducedCong` | lib/crypt/ecc.c:553-611 | the combination of word permutations is congruent to the 512-bit number |
| `EccP256.AddTerms` | lib/crypt/ecc.c:553-583 | the terms that are added, two of them doubled, with their carries |
| `EccP256.SubTerms` | lib/crypt/ecc.c:585-611 | the terms that are subtracted, with their borrows |
| `EccP256.Normalize` | lib/crypt/ecc.c:613-626 | adding or subtracting the prime ends with the remainder |
| `EccP256.ModMultFast` | lib/crypt/ecc.c:697-702 | the product modulo the prime, for all operands |
| `EccP256.ModSquareFast` | lib/crypt/ecc.c:705-710 | the square modulo the prime |
| `EccMod.ModAdd` | lib/crypt/ecc.c:453-460 | the sum modulo the modulus, for operands below it |
| `EccMod.ModSub` | lib/crypt/ecc.c:464-472 | the difference modulo the modulus, for operands below it |
| `EccMod.ModInv` | lib/crypt/ecc.c:716-804 | for every odd modulus above one the loop ends, and the result times the input is congruent to their greatest common divisor; zero gives zero |
| `EccMod.InverseExactlyIfCoprime` | lib/crypt/ecc.c:716-804 | the result is the inverse if and only if the input is coprime to the modulus |
| `EccMod.HalveMod` | lib/crypt/ecc.c:740-748 | the half of u, or of u plus the modulus, although the sum has one bit too many |
| `EccMod.SubMod` | lib/crypt/ecc.c:767-771 | subtracting modulo the modulus: the dropped carry and the borrow cancel |
| `EccMod.InvertHalve` | lib/crypt/ecc.c:737-749 | the halving branch keeps u x = a and v x = b modulo the modulus, and the greatest common divisor |
| `EccMod.InvertSubtract` | lib/crypt/ecc.c:763-781 | the subtracting branch keeps them too |
| `EccMod.InvertLoop` | lib/crypt/ecc.c:729-801 | the loop ends, because a + b falls, with a = b and the invariant |
| `EccModMult.ModMult` | lib/crypt/ecc.c:1186-1248 | left times right modulo the modulus, whenever the shifted modulus fits in the double width |
| `EccModMult.FitsTopBit` | lib/crypt/ecc.c:1211-1224 | it fits for all operands if the modulus has its top bit set |
| `EccModMult.FitsReduced` | lib/crypt/ecc.c:1211-1224 | it fits for all operands below the modulus |
| `EccModMult.ReduceRound` | lib/crypt/ecc.c:1229-1246 | each round keeps the product below twice the shifted modulus and congruent to the original |
| `EccModMult.LoopTest` | lib/crypt/ecc.c:1229 | the half-width test stops the loop exactly when the shifted modulus has passed below the modulus |
| `EccModMult.SubtractMultiples` | lib/crypt/ecc.c:1226-1246 | the shift-and-subtract loop ends with the remainder |
| `EccModMult.SubWide` | lib/crypt/ecc.c:1234-1238 | the two-half subtraction with the borrow taken through the number one is exact |
| `EccModMult.HalveWide` | lib/crypt/ecc.c:1240-1243 | the two-half right shift is exact |
| `EccModMult.ShiftedModulus` | lib/crypt/ecc.c:1213-1224 | the modulus times a power of two, placed by digits and then by bits |
| `EccModMult.ProductBits` | lib/crypt/ecc.c:1195-1203 | the bit length of the product from its two halves |
| `EccSqrt.ModSqrt` | lib/crypt/ecc.c:1034-1052 | the result is reduced, and it is a square root of the input if and only if the input is a square modulo the prime; if not, it is a root of the negative |
| `EccSqrt.RootExactlyIfSquare` | lib/crypt/ecc.c:1034-1052 | a to the power (p + 1) / 4 squares to a exactly when some number does |
| `EccSqrt.TestBitIs` | lib/crypt/ecc.c:167-170 | the bit of the digit is the bit of the number |
| `PrimeP256.PrimeSecp256r1` | lib/crypt/ecc.c:1034-1052 | the modulus of secp256r1 is a prime |
| `X25519.Curve25519Donna` | lib/crypt/curve25519-donna.c:847-864 | the 32 bytes written are X25519 of section 5 of RFC 7748, for every scalar and every u-coordinate, in place or not |
| `X25519.MainTheorem` | lib/crypt/curve25519-donna.c:730-775 | the 256 plain steps of the source and the 255 deferred-swap steps of the RFC give the same u-coordinate |
| `X25519.DeferredSwap` | lib/crypt/curve25519-donna.c:746-754 | swapping before and after each step equals the deferred swap of the RFC |
| `X25519.ExtraStep` | lib/crypt/curve25519-donna.c:741-754 | the additional leading step scales both points, through all further steps |
| `X25519.ScaledStep` | lib/crypt/curve25519-donna.c:629-702 | a ladder step takes scaled points to scaled points |
| `X25519.ScaledQuotient` | lib/crypt/curve25519-donna.c:860-862 | the final quotient does not depend on the scale |
| `X25519.SameQuotient` | lib/crypt/curve25519-donna.c:730-775 | so the additional step changes nothing, also where u is a multiple of the prime |
| `X25519.TopBitClear` | lib/crypt/curve25519-donna.c:854-856 | the clamped scalar has its top bit clear |
| `X25519Scalar.ClampBits` | lib/crypt/curve25519-donna.c:853-856 | bit 254 of the scalar is set, bits 3 to 253 are those given, and all others are clear |
| `X25519Scalar.ScalarRange` | lib/crypt/curve25519-donna.c:853-856 | the scalar is a multiple of eight, at least 2^254 and below 2^255 |
| `X25519Scalar.CoordinateBits` | lib/crypt/curve25519-donna.c:429-446 | the top bit of the u-coordinate is ignored, and nothing else |
| `X25519Scalar.StepDoubles` | lib/crypt/curve25519-donna.c:629-702 | on the curve with coefficient 486662 a step doubles the first point, by the formula of affine coordinates |
| `X25519Scalar.StepAdds` | lib/crypt/curve25519-donna.c:629-702 | and it adds the two points, by the formula for points with a known difference |
| `X25519Scalar.LadderMultiplies` | lib/crypt/curve25519-donna.c:730-775 | whatever stands for the multiples of a point, if a step doubles and adds them then the result is the quotient of the multiple by the scalar |
| `PrimeCertificate.PrimeP` | lib/crypt/curve25519-donna.c:781-845 | 2^255 - 19 is a prime, so the inversion chain inverts |
| `Primes.Fermat` | lib/crypt/curve25519-donna.c:781-845 | Fermat's little theorem, on which the inversion by exponentiation rests |
| `X25519Reduce.Fproduct` | lib/crypt/curve25519-donna.c:103-204 | the nineteen columns hold the exact product, for all limbs below 2^27, without leaving 64 bits |
| `X25519Reduce.FsquareInner` | lib/crypt/curve25519-donna.c:349-405 | the squaring columns hold the exact square |
| `X25519Field.ProductValue` | lib/crypt/curve25519-donna.c:103-204 | the columns, with odd positions doubled, stand for the product of the values |
| `X25519Reduce.FreduceDegree` | lib/crypt/curve25519-donna.c:210-242 | the value modulo the prime is kept by folding the upper limbs, without overflow |
| `X25519Reduce.FreduceCoefficients` | lib/crypt/curve25519-donna.c:283-324 | the value modulo the prime is kept, and every limb ends below 2^26 |
| `X25519Reduce.DivBy226` | lib/crypt/curve25519-donna.c:252-262 | the shifts and the sign word compute a quotient rounded towards zero |
| `X25519Reduce.CarryStep` | lib/crypt/curve25519-donna.c:288-306 | one carry keeps the value and the bounds |
| `X25519Reduce.Fmul` | lib/crypt/curve25519-donna.c:333-341 | field multiplication: exact modulo the prime, limbs below 2^26 |
| `X25519Reduce.Fsquare` | lib/crypt/curve25519-donna.c:415-425 | field squaring: exact modulo the prime, limbs below 2^26 |
| `X25519Monty.Fsum` | lib/crypt/curve25519-donna.c:72-78 | limb-wise sum |
| `X25519Monty.Fdifference` | lib/crypt/curve25519-donna.c:82-87 | limb-wise difference |
| `X25519Monty.FscalarProduct` | lib/crypt/curve25519-donna.c:90-95 | product with a small scalar |
| `X25519Monty.Fmonty` | lib/crypt/curve25519-donna.c:629-702 | a step on limbs refines the ladder step of the RFC modulo the prime, and keeps every limb below 2^26 |
| `X25519Monty.DifferenceAdd` | lib/crypt/curve25519-donna.c:643-675 | the difference addition of the step |
| `X25519Monty.Double` | lib/crypt/curve25519-donna.c:677-701 | the doubling of the step |
| `X25519Monty.StepCong` | lib/crypt/curve25519-donna.c:629-702 | congruent arguments give congruent results of the RFC's step |
| `X25519Ladder.SwapConditional` | lib/crypt/curve25519-donna.c:714-723 | the masked swap exchanges the limbs if and only if the flag is one |
| `X25519Ladder.Cmult` | lib/crypt/curve25519-donna.c:730-775 | the double loop over bytes and bits is the ladder over the 256 bits of the scalar |
| `X25519Ladder.LadderByte` | lib/crypt/curve25519-donna.c:742-770 | eight steps, with the arrays trading places after each |
| `X25519Ladder.NextBit` | lib/crypt/curve25519-donna.c:742-769 | the top bit of the shifted byte is the next bit of the scalar |
| `X25519Recip.Crecip` | lib/crypt/curve25519-donna.c:781-845 | the addition chain computes the power p - 2 |
| `X25519Recip.Raise` | lib/crypt/curve25519-donna.c:788-830 | squarings back and forth between two arrays, then a product: the exponents of one link of the chain |
| `X25519Bytes.Fexpand` | lib/crypt/curve25519-donna.c:429-446 | the limbs stand for the 255 low bits of the 32 bytes |
| `X25519Bytes.BytesInjective` | lib/crypt/curve25519-donna.c:598-614 | the representative determines the 32 bytes |
| `X25519Bytes.BytesConcat` | lib/crypt/curve25519-donna.c:429-446 | the bytes of a number count by their place, the first for the least |
| `X25519Contract.Fcontract` | lib/crypt/curve25519-donna.c:476-616 | for all limbs below 2^26 the bytes are the representative in [0, 2^255 - 19) |
| `X25519Contract.BorrowPass` | lib/crypt/curve25519-donna.c:487-511 | a borrowing pass keeps the value modulo the prime; the second pass leaves no negative limb |
| `X25519Contract.CarryPass` | lib/crypt/curve25519-donna.c:539-557 | a carrying pass keeps the value modulo the prime; the second pass leaves reduced limbs |
| `X25519Contract.SubtractPrime` | lib/crypt/curve25519-donna.c:569-588 | one conditional subtraction gives the remainder |
| `X25519Contract.PackBytes` | lib/crypt/curve25519-donna.c:590-614 | shifts and byte-wise disjunction write the value |
| `X25519Contract.S32Gte` | lib/crypt/curve25519-donna.c:465-469 | all ones exactly when the first is not less |
| `X25519Contract.ExpandContracted` | lib/crypt/curve25519-donna.c:429-446 | expanding what was written gives back the same field element |
| `TwosComplement.S32Eq` | lib/crypt/curve25519-donna.c:453-461 | all ones exactly when the arguments agree |
| `TwosComplement.XorSwap` | lib/crypt/curve25519-donna.c:714-723 | the exclusive-or under a mask swaps or does nothing |
| `TwosComplement.OrDisjoint` | lib/crypt/curve25519-donna.c:598-614 | the disjunction of numbers without a common bit is their sum |
| `HashTable.HashTable.Set` | lib/core/ogs-hash.c:325-353 | the table afterwards is the map with the key set, or removed for a null value, for every key given by length or as a string; the mask doubles exactly when there are more entries than it |
| `HashTable.HashTable.Get` | lib/core/ogs-hash.c:309-323 | the value of the key, or null |
| `HashTable.HashTable.GetOrSet` | lib/core/ogs-hash.c:355-375 | the value that was there, or the given one, which is then stored unless null; the mask doubles exactly when there are more entries than it |
| `HashTable.HashTable.Scan` | lib/core/ogs-hash.c:281-288 | the walk down one chain finds the entry of the key if and only if there is one |
| `HashTable.HashTable.FindOrAdd` | lib/core/ogs-hash.c:270-307 | the entry of the key, which is added at the end of its chain if it is not there |
| `HashTable.HashTable.TakeEntry` | lib/core/ogs-hash.c:293-298 | a recycled entry if there is one, and it is recycled no longer |
| `HashTable.HashTable.Remove` | lib/core/ogs-hash.c:336-342 | the entry leaves its chain and is pushed on the free list once |
| `HashTable.HashTable.Expand` | lib/core/ogs-hash.c:187-203 | twice the buckets, every entry in the chain of its new bucket, the same map |
| `HashTable.HashTable.First` | lib/core/ogs-hash.c:138-151 | the first entry, and what remains to be visited |
| `HashTable.HashTable.Next` | lib/core/ogs-hash.c:123-136 | the next of the entries that remain |
| `HashTable.HashTable.Do` | lib/core/ogs-hash.c:401-424 | the callback sees each key at most once and accepts all that it sees, but for the last of a walk that it stops; a walk that is not stopped sees every key, and the result says whether all were accepted |
| `HashTable.HashTable.CountIs` | lib/core/ogs-hash.c:377-381 | the count is the number of keys |
| `Hash.VisitedEach` | lib/core/ogs-hash.c:401-424 | every visited entry is in the table, and was accepted but for the last one of a walk that stopped |
| `HashTable.HashTable.Clear` | lib/core/ogs-hash.c:383-391 | it completes if and only if the empty string is not a key, and then the map is empty and every entry is on the free list |
| `HashTable.ClearStops` | lib/core/ogs-hash.c:383-391 | the empty key set as a string on a new table: clearing it fails |
| `HashTable.UpToNul` | lib/core/ogs-hash.c:250-255 | a key given as a string ends before its first NUL |
| `Hash.HashDefault` | lib/core/ogs-hash.c:205-263 | times 33 in 32 bits over the bytes of the key |
| `Hash.Times33Next` | lib/core/ogs-hash.c:250-262 | each byte multiplies by 33 and adds itself, modulo 2^32, starting from the seed |
| `Hash.BucketIs` | lib/core/ogs-hash.c:282 | the mask is the remainder modulo the number of buckets, which is a power of two |
| `Hash.AppendedOk` | lib/core/ogs-hash.c:292-306 | appending an entry keeps chains, free list and map consistent |
| `Hash.UnlinkedOk` | lib/core/ogs-hash.c:336-342 | so does unlinking one |
| `Hash.RehashStep` | lib/core/ogs-hash.c:195-199 | each move of the rehash keeps every entry in exactly one chain, old or new |
| `Hash.RehashEnd` | lib/core/ogs-hash.c:195-202 | after the last move the table is consistent, with every value as it was |
| `Hash.FlatOnce` | lib/core/ogs-hash.c:123-151 | the chains together hold every live entry once |
| `Hash.ClearedOne` | lib/core/ogs-hash.c:383-391 | deleting the entry under the iterator leaves the rest of the iteration as it was |
| `Tlv.RoundTrip` | lib/core/ogs-tlv.c:402-481 | parsing the rendering of any forest whose fields fit the mode gives back the forest, blocks within blocks included |
| `Tlv.ParseRendered` | lib/core/ogs-tlv.c:436-474 | the elements found in a rendering are exactly those rendered |
| `Tlv.RenderLength` | lib/core/ogs-tlv.c:109-146 | the rendered size is the calculated length |
| `Tlv.HeaderBack` | lib/core/ogs-tlv.c:164-259 | type, length and instance are read back as written |
| `TlvLaws.HeaderLayout` | lib/core/ogs-tlv.c:164-217 | the header byte by byte in every mode, high bytes first |
| `TlvLaws.ElementLayout` | lib/core/ogs-tlv.c:402-433 | an element is its header and its value, a block its elements one behind the other |
| `TlvLaws.ElementRead` | lib/core/ogs-tlv.c:219-259 | type, length, instance and place of the value, from the bytes at any position |
| `TlvLaws.ElementsInOrder` | lib/core/ogs-tlv.c:436-474 | the elements of a block lie one behind the other, and there is a next one exactly if the end is not reached |
| `TlvLaws.CutBlock` | lib/core/ogs-tlv.c:453-471 | a prefix of a well-formed block is well formed if and only if it ends where one of the elements does |
| `TlvRender.CalcLength` | lib/core/ogs-tlv.c:109-146 | the length of a chain of nodes, with the length of every block written back into its node |
| `TlvRender.RenderInto` | lib/core/ogs-tlv.c:402-433 | the bytes of the chain, with the embedded blocks in place, and nothing else of the buffer |
| `TlvNodes.TlvAdd` | lib/core/ogs-tlv.c:303-338 | the node taken from the pool is filled and linked behind the last of the chain |
| `TlvNodes.TlvEmbed` | lib/core/ogs-tlv.c:364-400 | the node taken from the pool is linked behind the last node embedded in the parent |
| `TlvNodes.LevelAdd` | lib/core/ogs-tlv.c:303-400 | a chain of nodes with its elements becomes the chain with one element more, of which every node was free before |
| `TlvNodes.LevelAttach` | lib/core/ogs-tlv-msg.c:314-336 | a node gets the chain built for it as its block, and the outer chain stays a chain |
| `TlvPool.Pool.ParseBlock` | lib/core/ogs-tlv.c:436-474 | a chain of nodes that holds exactly the elements of the block, or all nodes back in the pool if the last element does not end with the block |
| `TlvPool.Pool.FreeAll` | lib/core/ogs-tlv.c:65-78 | every node of the chain and of its blocks goes back to the pool once |
| `TlvPool.Pool.Get` | lib/core/ogs-tlv.c:29-42 | a zeroed node from the front of the free queue |
| `TlvPool.Pool.Alloc` | lib/core/ogs-pool.h:132-140 | the ring behaves as a queue: the first free node is taken |
| `TlvPool.Pool.Free` | lib/core/ogs-pool.h:143-150 | the node is put at the end of the queue, which always has room |
| `TlvPool.Pool.Find` | lib/core/ogs-pool.h:152-154 | the node with an index exactly while it is in use |
| `TlvPool.Pool.constructor` | lib/core/ogs-pool.h:52-70 | all nodes are free |
| `TlvPool.Attach` | lib/core/ogs-tlv.c:476-481 | a node of a chain gets an embedded block, and the chain stays a chain |
| `TlvMsgProof.MessageRoundTrip` | lib/core/ogs-tlv-msg.c:283-768 | building a message and parsing it into a zeroed one restores every visited slot and no other, if and only if no field is present without those before it on its level that share its type and instance |
| `TlvMsgProof.SecondBecomesFirst` | lib/core/ogs-tlv-msg.c:641-739 | of two fields alike only the second is present: it comes back as the first |
| `TlvMsgProof.DistinctOrdered` | lib/core/ogs-tlv-msg.c:641-739 | distinct types and instances on every level suffice |
| `TlvMsgProof.FindIs` | lib/core/ogs-tlv-msg.c:454-485 | the search for the next match finds the descriptor with the offset that building used, through repetitions |
| `TlvMsgProof.Misplaced` | lib/core/ogs-tlv-msg.c:664-697 | an element whose predecessor of the same type and instance is absent is stored in the predecessor's slot |
| `TlvMsgProof.ParseRepeat` | lib/core/ogs-tlv-msg.c:679-694 | repeated elements fill the repeated slots in order |
| `TlvMsgProof.LeafBack` | lib/core/ogs-tlv-msg.c:487-595 | a leaf is read back as it was written |
| `TlvLaws.LeafLayout` | lib/core/ogs-tlv-msg.c:98-281 | the bytes of a field of every type, numbers in network order |
| `TlvLaws.BuildsExactly` | lib/core/ogs-tlv-msg.c:283-408 | building succeeds if and only if every present field is buildable, and makes one element of each, in order |
| `TlvLaws.LeafOutcome` | lib/core/ogs-tlv-msg.c:487-595 | a leaf of any length: stored with its value, or refused |
| `TlvLaws.CompoundOutcome` | lib/core/ogs-tlv-msg.c:699-719 | a compound is refused if its block is malformed or one of its elements is refused, and otherwise marked once they are stored |
| `TlvLaws.FindExactly` | lib/core/ogs-tlv-msg.c:454-485 | the search finds the n-th matching descriptor with its offset, or nothing if there are fewer |
| `TlvLaws.FreeSlotExactly` | lib/core/ogs-tlv-msg.c:680-689 | the first repeated slot that is not present |
| `TlvLaws.ElementOutcome` | lib/core/ogs-tlv-msg.c:628-697 | the fate of an element in every state: failure for want of a counter exactly at a new key when 128 are in use; skipped without a descriptor or with all repetitions full; else stored at its place |
| `TlvLaws.UnknownSkipped` | lib/core/ogs-tlv-msg.c:664-675 | an element that no descriptor matches, anywhere in a packet, changes neither the outcome nor any slot while at most 128 keys occur |
| `TlvLaws.KnownStep` | lib/core/ogs-tlv-msg.c:664-697 | what an element does depends on the counter of its own type and instance only |
| `TlvMsgProof.VisitedPart` | lib/core/ogs-tlv-msg.c:283-408 | only slots of the message are visited, with their values |
| `TlvMsgProof.PresentVisited` | lib/core/ogs-tlv-msg.c:283-408 | every present slot is visited, as far as those before it in a repetition are present |
| `TlvParse.ParseMsg` | lib/core/ogs-tlv-msg.c:741-768 | the slots are those of the recursive parse, and whatever the packet holds, every node that was taken is back in the pool afterwards |
| `TlvParse.ParseCompound` | lib/core/ogs-tlv-msg.c:641-739 | the chain becomes a chain of trees of the nodes taken, and the slots are filled as specified |
| `TlvParse.FindSlot` | lib/core/ogs-tlv-msg.c:606-697 | the slot for an element, by the count of its type and instance and the first free repetition; none for an unknown element or a full repetition, which are skipped |
| `TlvParse.FindDescriptor` | lib/core/ogs-tlv-msg.c:454-485 | the descriptor that matches for the n-th time |
| `TlvBuild.BuildMsg` | lib/core/ogs-tlv-msg.c:410-452 | the rendered elements of all present fields, with every node back in the pool; on failure exactly the counted nodes are lost; it stops exactly if the pool runs out or a level is deeper than 8 |
| `TlvBuild.AddCompound` | lib/core/ogs-tlv-msg.c:283-408 | the chain of nodes for one level of a message, and how many were taken |
| `TlvBuild.AddLeaf` | lib/core/ogs-tlv-msg.c:98-281 | the node of a field; an empty string of variable length is rejected before a node is taken |
| `TlvBuild.LostExactly` | lib/core/ogs-tlv-msg.c:410-425 | a failed build gives back every node it took if and only if nothing is present or the first present field is rejected |
| `TlvBuild.NodeLost` | lib/core/ogs-tlv-msg.c:410-425 | a number followed by an empty string: the node of the number is lost |
| `TlvBuild.Exchange` | lib/core/ogs-tlv-msg.c:410-768 | sender and receiver together: the received message is the one sent exactly when its fields are in order, and neither pool has lost a node |
| `Getopt.Options.Run` | lib/core/ogs-getopt.c:103-171 | over a whole run argv stays a permutation; what is reported is what a left-to-right scan that skips non-options reports, up to the first error; at the end come the options with their arguments, the non-options in their order and what followed "--" |
| `Getopt.Options.Next` | lib/core/ogs-getopt.c:103-171 | one call: what it reports, where it stops and how argv is rearranged, in both modes |
| `Getopt.Options.Permute` | lib/core/ogs-getopt.c:81-88 | one argument moves behind those up to the current position |
| `Getopt.Options.ReadOption` | lib/core/ogs-getopt.c:127-170 | the four kinds of options within a group |
| `Getopt.Options.Arg` | lib/core/ogs-getopt.c:173-180 | the next argument, whatever it is |
| `Getopt.FindArgType` | lib/core/ogs-getopt.c:90-101 | the kind of an option, from the option string |
| `Getopt.OptionAlone` | lib/core/ogs-getopt.c:138-145 | an option without a colon behind its first place in the option string takes nothing, and the group goes on behind it |
| `Getopt.OptionRequires` | lib/core/ogs-getopt.c:146-160 | with exactly one colon it takes the text attached to it, or else the next argument, and is an error with nothing behind it |
| `Getopt.OptionAllows` | lib/core/ogs-getopt.c:161-168 | with two colons it takes the text attached to it and never the next argument |
| `Getopt.OptionUnknown` | lib/core/ogs-getopt.c:132-137 | a character that is not in the option string, and a colon, are errors |
| `Getopt.SeparateArgument` | lib/core/ogs-getopt.c:146-160 | "-c" and the next argument, whatever it is and whatever follows |
| `Getopt.ArgumentPassed` | lib/core/ogs-getopt.c:113-125 | "--" ends the options; every other argument that starts no option is passed over, or ends them if nothing is moved |
| `Getopt.CallStep` | lib/core/ogs-getopt.c:103-171 | a call is one step of the scan of all arguments |
| `Getopt.CallParts` | lib/core/ogs-getopt.c:112-121 | a call neither loses nor invents arguments |
| `Getopt.StrayCall` | lib/core/ogs-getopt.c:127 | a call reads behind the end of an argument exactly when the position within the group is beyond it |
| `Getopt.AfterBad` | lib/core/ogs-getopt.c:132-137 | after a '?' the next call differs from a fresh one if and only if the unknown option was not the first of its group and another option follows; it stays within that option if and only if it is long enough |
| `Getopt.SkippedAfterBad` | lib/core/ogs-getopt.c:132-137 | of "-bc" after "-az" the option b is never reported |
| `Getopt.StrayAfterBad` | lib/core/ogs-getopt.c:132-137 | "-c" after "-abz" is read behind its end |
| `AesModes.CtrEncrypt` | lib/crypt/ogs-aes.c:1419-1470 | counter mode with words, in place or not, in either byte order: every byte combined with its byte of the key stream, and the 128-bit counter advanced by the number of blocks begun |
| `AesModes.CtrReference` | lib/crypt/ogs-aes.c:1472-1483 | the byte-wise reference loop computes the same bytes and the same counter |
| `AesModes.CtrTwice` | lib/crypt/ogs-aes.c:1419-1486 | counter mode is its own inverse |
| `AesLaws.CtrByte` | lib/crypt/ogs-aes.c:1419-1470 | byte l is combined with byte l mod 16 of the cipher of the block that stands for the counter plus l / 16, modulo 2^128 |
| `AesLaws.CtrCounter` | lib/crypt/ogs-aes.c:1419-1470 | the counter advances by the number of blocks begun |
| `AesLaws.IncrementedBytes` | lib/crypt/ogs-aes.c:1381-1391 | adding one: the bytes of 255 at the end become 0 and the one before them grows by one, or the counter wraps to 0 |
| `AesLaws.CounterDigits` | lib/crypt/ogs-aes.c:1381-1391 | the first byte of the counter counts most |
| `AesLaws.Xor8Bit` | lib/crypt/ogs-aes.c:1480 | a bit of the combined byte is set exactly when the bits of the two differ |
| `AesModes.Inc` | lib/crypt/ogs-aes.c:1381-1391 | the byte-wise carry adds one modulo 2^128 |
| `AesModes.IncAligned` | lib/crypt/ogs-aes.c:1393-1417 | so does the word-wise one, with its carry from the sign bit |
| `AesModes.CbcEncryptBytes` | lib/crypt/ogs-aes.c:1232-1290 | the chained encryption of the zero-padded message and the vector for the next one, in place or not; when the test for room is passed although there is too little |
| `AesModes.NeededIs` | lib/crypt/ogs-aes.c:1251-1256 | the room asked for in 32 bits is the padded length if and only if the length is at most 2^32 - 16; beyond that it is zero |
| `AesModes.CbcDecryptBytes` | lib/crypt/ogs-aes.c:1292-1379 | fails exactly on a partial block, and otherwise both forms, in place and apart, compute the same decryption and the same vector |
| `AesModes.DecryptApart` | lib/crypt/ogs-aes.c:1327-1349 | the form with two buffers |
| `AesModes.DecryptInPlace` | lib/crypt/ogs-aes.c:1350-1376 | the form that overwrites its input |
| `AesModes.CbcRoundTrip` | lib/crypt/ogs-aes.c:1232-1379 | decryption undoes encryption of whole blocks |
| `AesModes.CbcRestores` | lib/crypt/ogs-aes.c:1232-1379 | any message is restored up to its zero padding |
| `AesModes.CbcContinues` | lib/crypt/ogs-aes.c:1287 | a second message continues the chain of the first |
| `AesModes.Pad` | lib/crypt/ogs-aes.c:1277-1282 | the message and fewer than 16 zero bytes up to a whole block |
| `AesLaws.CbcEncryptedBlock` | lib/crypt/ogs-aes.c:1266-1285 | every cipher block is the cipher of its plain block combined with the cipher block before, or the vector |
| `AesLaws.CbcDecryptedBlock` | lib/crypt/ogs-aes.c:1327-1376 | every plain block is the deciphered block combined with the cipher block before, or the vector |
| `AesLaws.LastBlock` | lib/crypt/ogs-aes.c:1287 | the vector that is left is the last cipher block |
| `AesBits.XorWordBytes` | lib/crypt/ogs-aes.c:1452-1454 | combining words is combining their bytes |

## Findings

Properties that the code does not have in general. Each has an input that shows it, and the exact
condition under which the code has it.

| property | source | input | holds if and only if |
|---|---|---|---|
| clearing a table empties it | lib/core/ogs-hash.c:383-391 | `HashTable.ClearStops`: the empty key, set as a string | the empty string is not a key (`HashTable.HashTable.Clear`): entries are deleted by their length, and length 0 is refused by the assertion in `ogs_hash_set` |
| a due timer that an earlier callback stops does not fire | lib/core/ogs-timer.c:172-188 | `TimerQueue.StoppedTimerStillFires`: two due timers, the first stops the second | never stopped by the callbacks before it: `TimerQueue.RunningAtTurn` says exactly when a due timer is still running at its turn, and `Timer.TimerMgr.Expire` that it fires either way |
| the call after a '?' is the call of a fresh position | lib/core/ogs-getopt.c:127-137 | `Getopt.SkippedAfterBad`: `-az -bc`; `Getopt.StrayAfterBad`: `-abz -c` | the rejected option was the first of its group, or lacked its argument, or no option follows (`Getopt.AfterBad`); otherwise the next option is read from the old position, within its text if and only if it is long enough |
| parsing a built message restores it | lib/core/ogs-tlv-msg.c:641-739 | `TlvMsgProof.SecondBecomesFirst`: two fields alike, only the second present | on every level no field is present without those before it that share its type and instance (`TlvMsgProof.MessageRoundTrip`) |
| a failed build gives back its nodes | lib/core/ogs-tlv-msg.c:410-425 | `TlvBuild.NodeLost`: a number, then an empty string | nothing is present, or the first present field is the rejected one (`TlvBuild.LostExactly`) |
| the test for room in CBC encryption is right | lib/crypt/ogs-aes.c:1251-1256 | a message longer than 2^32 - 16 bytes | the length is at most 2^32 - 16 (`AesModes.NeededIs`) |

## Left out

- Red-black tree: `ogs_rbtree_prev`, `ogs_rbtree_last` and `ogs_rbtree_max`, the mirror images of what is modelled, and counting; the two mirrored branches of the fix-up loops are one, with the side as an argument.
- Timers: the clock is a parameter, the pool of timers is a count of free ones, and a callback is the sequence of starts and stops that it performs; deleting a timer in a callback is excluded, as the source's comment at lib/core/ogs-timer.c:181-182 asks.
- Queue: destruction and `ogs_queue_size`; a signal wakes one sleeper, and waking more is covered by spurious wake-ups; fairness and termination of the scheduler.
- EccModMult.ModMult: requires that the shifted modulus fits in twice the digits; without it the source writes outside its array. `EccModMult.FitsTopBit` and `EccModMult.FitsReduced` give the two conditions under which callers use it.
- Arithmetic for the other curve sizes, the group law, point compression, ECDH and ECDSA, and random numbers.
- X25519: constant running time; shifts of signed numbers are the arithmetic ones of common compilers.
- Hash table: `count` stays below 2^31, where doubling would overflow; keys are values, not memory that the caller might change; a custom hash function is an arbitrary function of the key; `ogs_hash_destroy`.
- HashTable.HashTable.Set: a string key without a NUL is taken to end where the given bytes end, because what follows them in memory is not modelled.
- Pool: the identifier table; running out of nodes stops the program and is reported as `aborted`.
- TLV nodes: copying values into a buffer of the node, which the message builder does not use, with the walk to the root that looks for that buffer.
- TLV messages: TV types and `ogs_tlv_parse_msg_desc`; the byte swap that leaves the numbers of a built message in network order; the tree that counts elements is a map; text of the log.
- TlvBuild.BuildMsg: a field of fixed size holds at least that many bytes, since what lies behind shorter data in memory is not modelled.
- Tlv.ParseRendered: bytes behind the end of a malformed block are arbitrary, since the source reads them without a test.
- TlvMsgProof.MessageRoundTrip: descriptor tables in which a repeated descriptor is followed by another of its type and instance, whose elements the source never reaches.
- Options: long options, error texts, and what is read behind the end of an argument.
- AesModes.CbcEncryptBytes: what is written when the output is too small although the test for room was passed.
- AES itself: the rounds and the key schedule are an arbitrary block permutation with its inverse; big- and little-endian words are both covered.
- Sockets, polling, processes, files, logging, memory allocation, configuration and the remaining hash functions, encodings and conversions.
