# The filter compiler of libpcap, modelled and proved in Dafny

libpcap turns a filter expression into a program for the BPF machine. This project models that compiler
(`libpcap-1.4.0/gencode.c` and `libpcap-1.4.0/optimize.c`): the one-pass generator that threads unresolved exits
through the blocks it builds, the optimizer passes over the acyclic graph of blocks, and the assembler that lays the
blocks out in an array with 8-bit displacements. Two smaller stateful parts of the library stand beside it: the
resumable packet loop of `libpcap-1.4.0/pcap-bpf.c` and the ordered device list of `libpcap-1.4.0/inet.c`.

`dafny verify dfyconfig.toml` checks the whole project.

How it is put together:

- The machine: `Words`, `WordLaws` (its operations bit by bit and number by number), `Bpf` (accumulator, index register, 16 scratch words, 32-bit wrap-around, loads that fault
  outside the captured bytes), `Blocks` (graphs of blocks and their runs), `Program` (arrays of instructions).
- The generator: `Trees`, `Backpatch`, `Meanings`, `Filters` (the filter language and what a filter means), `Frames`
  (what it means of frames built field by field), `Regs`, `Arith`, `Tests`.
- The optimizer: `Levels`, `Dominance`, `Dominators`, `InEdges`, `Liveness`, `DeadStores`, `Values`, `Rewrites`,
  `Treatments`, `Numbering`, `ValueFlow`, `ValuePass`, `ValueSound`, `UnknownNumbers`, `Cleanup`, `Setters`, `LostStores`,
  `Walks`, `EdgeFold`, `Pullup`, `GeneratorForm`, `Crossings`, `ShownFaults`, `PullFaults`, `LostPulls`, `Peephole`, `PeepRuns`,
  `Roots`, `Reach`, `Intern`.
- The assembler: `Layout`, `Placement`, `Flatten`.
- Each pass as a round over a whole graph: `Rounds` (dead stores, interning), `FoldRounds` (moving edges), `StatementRounds`,
  `PeepRounds`, `PullRounds`.
- Put together: `Compiler` (no optimizer) and `Optimize` (the compiler with dead stores, edge promotion, interning and the
  skipping of root branches, and with the rewriting of statements).
- Beside them: `ReadLoop`, `IfList`.

Loops and updates in place are methods of classes whose fields are those of the C code; what they do is tied by
`ensures` clauses to functions and predicates on values, and the theorems are lemmas about those. The main results:

- a compiled filter returns, for every packet and every initial machine state, what the filter means, faults
  included (`Compiler.PcapCompile`), and still does, where it does not fault, when edges are promoted and dead stores
  dropped any number of times, equal blocks merged and branches at the root skipped (`Optimize.PcapCompileOptimized`), and when
  statements are rewritten as well (`Optimize.PcapCompileRewritten`);
- each optimizer pass as one round over a whole graph does exactly what it has to, no less, and keeps the result of every run that
  does not fault, under the condition it needs (`FoldRounds.FoldRound`, `Rounds.DeadStoreRound`, `Rounds.InternRound`, `StatementRounds.RewriteRound`,
  `StatementRounds.StatementRound`, `PeepRounds.PeepRound`, `PullRounds.PullSweep`, `Roots.OptRoot`);
- the meaning of filters is tied to packets: on frames built from their fields, filters accept what those fields say
  (`Frames.PortFilter`, `Frames.TransportTest`), and the operations of the machine are tied to bits and numbers (`WordLaws`);
- a division by zero is only reported of graphs with a block that no run gets through (`ValueSound.StopsImpassable`).

Where the code does not check the condition it needs, the project proves exactly when the result is right, mostly for classes of
graphs, and runs the pass on a graph outside the class whose result changes:

- the check for values in use looks at what is live after the target of an edge, not at what the target reads: moving edges is
  safe for all graphs in which the blocks between the root and a reader set only atoms of P, exactly when P is empty and nothing
  is read that was never set (`FoldRounds.FoldExact`, `Crossings.CrossingLost`, `Crossings.UnsetLost`);
- a pull-up moves a block before others, whatever they share, and where its loads may fault: pulls are safe for all graphs in which
  blocks other than the root read, of what such blocks set, only atoms of P, exactly when P is empty, nothing unset is read, and what
  may fault feeds the value that is tested (`PullRounds.PullExact`, with `LostPulls`);
- the statements of root branches that are skipped are dropped: safe for all graphs in which blocks between the root and a reader
  set only atoms of P, exactly when P is empty (`Roots.RootExact`);
- statements are rewritten by what the numbers of earlier blocks say and then dropped, in the same pass, by what was live
  before: a store is lost that a later block has come to rely on. The round is safe for all graphs that set only atoms of P,
  and A, twice on a path, exactly when P holds nothing but A (`StatementRounds.AtomsExact`, `LostStores.StoreLost`); dropping by
  what is live after the rewriting is safe for all graphs (`StatementRounds.SeparateRounds`);
- number 0 is compared like any other: rewriting is safe for all graphs whose blocks read only atoms of P before they set
  them, exactly when P is empty (`StatementRounds.UnknownExact`, `UnknownNumbers.MoveLost`);
- the rule for an indexed load leaves another X: it is right for what is read afterwards exactly if X is not, or its constant is 0
  (`Peephole.IndexFoldExact`, `Peephole.HeaderFoldExact`, `Peephole.StaleX`);
- a test of all bits is taken to succeed always: the successor is kept exactly unless the block is, or is made, such a test, A is
  0 and the successors differ (`Peephole.JsetKeeps`, `Peephole.Peeper.OptPeep`);
- the type and protocol checks of a right operand are dropped: accepted packets are of the layers loaded from exactly when the
  checks that are left ask for each of them, or contradict each other (`Filters.RelationChecks`, `RightOperandUnchecked`);
- the accumulator a return reads is not counted as live (`Liveness.ReturnLiveness`).

A run "faults" when a load leaves the captured bytes or a divisor is zero; the real interpreter then rejects the packet.
In every generated graph each block sets every atom it reads (`Compiler.Generate`), so there nothing crosses blocks, is shared between
them or read unset. What may fault need not feed what is tested: an order relation loads its right operand into X.

## Model

| member | source | states |
|---|---|---|
| `Words.NibbleTimesFour` | libpcap-1.4.0/gencode.c:1668-1680 | the header-length load is four times the low nibble of a byte, for every byte |
| `WordLaws.ComputeNumbers` | libpcap-1.4.0/optimize.c:582-635 | sums wrap around once, differences undo sums, products are repeated sums, a quotient is how often the divisor fits, a word and its negation cancel; only a division by zero has no result |
| `WordLaws.ComputeBits` | libpcap-1.4.0/optimize.c:582-635 | bit i of a conjunction or disjunction is that of both or either operand, and of a shifted word the bit as many places away, for every i below 32 |
| `WordLaws.TestLaws` | libpcap-1.4.0/optimize.c:884-909 | exactly one of less, equal and greater holds; at least is not less; the test of bits finds a common one |
| `WordLaws.UsesExact` | libpcap-1.4.0/optimize.c:335-371 | the atoms a statement is said to use are exactly those that what it computes can depend on |
| `Bpf.ExecConcat` | libpcap-1.4.0/gencode.h:190-200 | running two statement lists in a row is running their concatenation, faults included |
| `Bpf.ExecLive` | libpcap-1.4.0/optimize.c:1816-1825 | NOPs never change what a statement list does |
| `Blocks.RunTerminates` | libpcap-1.4.0/gencode.h:238-266 | on an acyclic graph every run ends, within the level of its first block, and more fuel changes nothing |
| `Optimize.PcapCompileOptimized` | libpcap-1.4.0/gencode.c:427-503 | generate, drop dead stores and promote edges any number of times, merge equal blocks, skip root branches, flatten: for every filter, packet and initial machine state where evaluating the filter does not fault, the array program returns snaplen if the filter accepts and 0 if not; each step did exactly what it has to; it fails for snaplen 0, exactly, and for a relation that needs more than 16 registers, exactly; it says that the expression rejects all packets exactly when the root left returns 0, and then the filter accepts none |
| `Optimize.PcapCompileRewritten` | libpcap-1.4.0/gencode.c:427-503 | the same with the rewriting of statements, dead stores being dropped by what is live after it: for every filter, packet and initial state where evaluating the filter does not fault, the array program returns snaplen if the filter accepts and 0 if not; a division by zero is reported only of filters that divide, and only when the graph has a reachable block that no run, of any packet, gets through |
| `Optimize.BranchRounds` | libpcap-1.4.0/optimize.c:1645-1671 | any number of rounds of dead-store removal and edge promotion keeps the result of every run that does not fault, and every block goes on setting what it reads; each round drops exactly the dead stores and brings every edge exactly to its goal; the peephole rules and the pull-ups, which the loop also applies, have rounds of their own |
| `StatementRounds.StatementRound` | libpcap-1.4.0/optimize.c:1146-1240 | one whole pass that numbers and rewrites statements and then empties blocks or drops their dead stores keeps the result of every run that does not fault, for every graph that sets no atom but A twice on a path, and whenever nothing dropped is read; it fails only where some reachable block cannot be got through |
| `StatementRounds.StatementRoundLoses` | libpcap-1.4.0/optimize.c:1146-1240 | for every other atom, the pass over a small graph that sets it twice changes the result |
| `StatementRounds.AtomsExact` | libpcap-1.4.0/optimize.c:1146-1240 | over the graphs whose blocks set what they read: the pass is safe for all that set only A and atoms of P twice on a path if and only if P holds nothing but A |
| `StatementRounds.RewriteRound` | libpcap-1.4.0/optimize.c:1556-1567 | numbering and rewriting alone keep the result of every run that does not fault, for every graph whose blocks set what they read; it fails only where there are divisions, and some reachable block cannot be got through |
| `ValueSound.StopsImpassable` | libpcap-1.4.0/optimize.c:601-604 | where a pass stops at a division by zero, no run gets to the end of that block: each faults or goes another way, if blocks set what they read |
| `StatementRounds.UnknownExact` | libpcap-1.4.0/optimize.c:573-580 | rewriting is safe for all graphs whose blocks read only atoms of P before setting them if and only if P is empty |
| `StatementRounds.SeparateRounds` | libpcap-1.4.0/optimize.c:1102-1144 | dead stores dropped by what is live after the rewriting, exactly those: the result is kept on every graph whose blocks set what they read |
| `PeepRounds.PeepRound` | libpcap-1.4.0/optimize.c:654-909 | in every reachable block the peephole rules are applied exactly, by the constants that numbering knows and the live atoms, and no other block changes; the result of every run that does not fault is kept, unless a block comes to test all bits or reads X after a folded load; it aborts exactly if a reachable block returns after setting A to a constant |
| `PullRounds.PullRound` | libpcap-1.4.0/optimize.c:1584-1590 | levels, dominators, incoming edges, numbers and one pull, done exactly when there is a chain for it: an acyclic graph of the same blocks; the result of every run that does not fault is kept, where no block but the root sets what another reads, and faults show in what is tested or no block faults |
| `PullRounds.PullSweep` | libpcap-1.4.0/optimize.c:1584-1590 | over every reachable branch, bottom level first, in the order of the lists, both ways: at each, a pull exactly when there is a chain for it; so the result of every run that does not fault is kept, where blocks share nothing |
| `PullRounds.PullExact` | libpcap-1.4.0/optimize.c:1373-1554 | over all graphs in which blocks other than the root read, of what such blocks set, only atoms of P, that read nothing unset if not unset, and whose faults feed what is tested if none is hidden: pulls are safe if and only if P is empty, nothing unset is read and no fault hidden |
| `PullRounds.OwnSharesNothing` | libpcap-1.4.0/optimize.c:1430-1432 | where every block sets what it reads, as in generated graphs, blocks share nothing |
| `PullRounds.PreparedPulled` | libpcap-1.4.0/optimize.c:1430-1432 | for every atom, the round over a graph in which a block of the chain sets it for the pulled one changes the result |
| `PullRounds.HidingPulled` | libpcap-1.4.0/optimize.c:1441-1462 | the round pulls up a block that loads a byte it does not test, and a packet that was accepted is rejected |
| `PullRounds.LoosePulled` | libpcap-1.4.0/optimize.c:1385-1392 | two loads at words nobody has set share a number, one is pulled up before a test that accepts, and faults |
| `FoldRounds.FoldRound` | libpcap-1.4.0/optimize.c:1655-1668 | levels, edge dominators, live atoms, value numbers and edge promotion in one round: every edge ends exactly where it has to, no other block changes, and the result of every run that does not fault is kept, for every graph in which no block between the root and a reader sets what that reads, and so where blocks set what they read |
| `FoldRounds.FoldExact` | libpcap-1.4.0/optimize.c:1250-1370 | over all graphs in which the blocks between the root and a reader set only atoms of P of what it reads, and that read nothing unset if not unset: promotion is safe if and only if P is empty and nothing unset is read |
| `FoldRounds.FoldRoundLoses` | libpcap-1.4.0/optimize.c:1250-1370 | for every atom, state and packet, the round over a small graph in which it crosses changes the result |
| `FoldRounds.FoldRoundUnset` | libpcap-1.4.0/optimize.c:1286-1296 | so does the round over two blocks that compare words nobody has set |
| `Rounds.DeadStoreRound` | libpcap-1.4.0/optimize.c:1655-1668 | in every reachable block exactly the statements become NOPs whose atom is neither read before it is set again nor live after the block, by the live sets of the graph; nothing else changes, the result of every run that does not fault is kept, and blocks that set what they read go on doing so |
| `Liveness.LiveIs` | libpcap-1.4.0/optimize.c:477-500 | live sets are exactly what a backward reading over the graph gives |
| `Rounds.InternRound` | libpcap-1.4.0/optimize.c:1681-1683 | merging equal blocks keeps every run exactly, faults included, and leaves no two equal reachable blocks |
| `Roots.OptRoot` | libpcap-1.4.0/optimize.c:1621-1643 | the root moves to the first block that is no branch with one target, the statements of the blocks between are dropped and the root's own come first, or none before a return; it fails exactly where statements would be appended to an empty list, and so never where blocks set what they read |
| `Roots.RootKeeps` | libpcap-1.4.0/optimize.c:1621-1643 | that keeps the result of every run that does not fault, where no block between the root and a reader sets what that reads |
| `Roots.RootExact` | libpcap-1.4.0/optimize.c:1621-1643 | over all graphs in which such blocks set only atoms of P: it is safe if and only if P is empty |
| `Roots.SkippedLost` | libpcap-1.4.0/optimize.c:1621-1643 | for every atom, a graph in which the skipped block sets it and the result changes |
| `Roots.AnyState` | libpcap-1.4.0/optimize.c:710-717 | where blocks set what they read, a run from any block is the same from every state, faults included |
| `Rounds.MaxValues` | libpcap-1.4.0/optimize.c:1957-1966 | the table gets three value numbers for each statement and each block |
| `Compiler.PcapCompile` | libpcap-1.4.0/gencode.c:427-503 | without the optimizer the program returns snaplen, returns 0 or faults exactly as the meaning of the filter says, for every state and packet, and accepts everything if there is no filter; its jumps go forward and fit; fails exactly for snaplen 0 and for too many registers |
| `Compiler.Generate` | libpcap-1.4.0/gencode.c:427-493 | the graph handed to the optimizer, of a filter or of an empty expression, is acyclic, every block sets what it reads, returns are constant and bare, constants are stored at once, nothing divides unless the filter does, and a run of it is the meaning of the filter |
| `Program.FlattenSimulates` | libpcap-1.4.0/optimize.c:2050-2145 | from any placed block, running the array is walking the graph: same return value or fault, through zero, one or two inserted jumps |
| `Program.SlotsDisjoint` | libpcap-1.4.0/optimize.c:2004-2017 | regions of distinct blocks do not overlap |
| `Program.SlotOwner` | libpcap-1.4.0/optimize.c:2004-2017 | every slot of the array belongs to a block: the regions tile it |
| `Program.PlacedForward` | libpcap-1.4.0/optimize.c:2108-2145 | every instruction of a placed block leads forward, inside the array: conditional branches by less than 256, inserted jumps by any distance |
| `Layout.VisitOrdered` | libpcap-1.4.0/optimize.c:1994-2017 | depth-first post-order lists every block after its successors, once |
| `Layout.VisitMinimal` | libpcap-1.4.0/optimize.c:1865-1889 | the traversal visits nothing but what is reachable |
| `Layout.VisitSameElems` | libpcap-1.4.0/optimize.c:1878-1889 | counting (true branch first) and placing (false branch first) visit the same blocks |
| `Layout.DispNonNegative` | libpcap-1.4.0/optimize.c:2108-2145 | successors lie after their branch, with room for its inserted jumps |
| `Layout.DispGrows` | libpcap-1.4.0/optimize.c:2108-2143 | reserving more long jumps never shrinks a displacement |
| `Layout.StableGrows` | libpcap-1.4.0/optimize.c:2110-2141 | marking a branch whose displacement is 256 or more keeps every marked branch at 256 or more |
| `Placement.VisitAdds` | libpcap-1.4.0/optimize.c:1994-2002 | a traversal adds exactly the blocks its start leads to |
| `Placement.VisitDirectly` | libpcap-1.4.0/optimize.c:1994-2002 | of the two targets of a branch, the false one if it leads to the true one, and otherwise the true one, directly follows the branch, unless something placed before leads to it |
| `Placement.TargetsAdjoin` | libpcap-1.4.0/optimize.c:2004-2017 | then only the jumps inserted for the branch lie between; and a true target that the false one leads to lies behind the false one |
| `Flatten.Slength` | libpcap-1.4.0/optimize.c:1816-1825 | counts the statements that are not NOPs |
| `Flatten.Assembler.CountStmts` | libpcap-1.4.0/optimize.c:1865-1889 | counts exactly the slots of the blocks first reached from p, and marks those |
| `Flatten.EmitStmts` | libpcap-1.4.0/optimize.c:2019-2050 | writes the statements of a block, without NOPs, from its offset on |
| `Flatten.Assembler.EmitBlock` | libpcap-1.4.0/optimize.c:2004-2145 | either places the block as specified and touches nothing behind its region, or sets one long-jump mark that was 0 whose branch needs it |
| `Flatten.Assembler.ConvertCodeR` | libpcap-1.4.0/optimize.c:1994-2145 | places every block reached from p from the tail of the array, or stops after setting one new mark |
| `Flatten.Assembler.Attempt` | libpcap-1.4.0/optimize.c:2172-2191 | one round of count and convert: a complete program, or one more mark |
| `Flatten.SpareDrops` | libpcap-1.4.0/optimize.c:2110-2141 | each failed attempt uses up one of the 2 marks per block |
| `Flatten.Assembler.IcodeToFcode` | libpcap-1.4.0/optimize.c:2166-2198 | the retry loop ends after at most twice as many retries as blocks with a forward program at whose index 0 every run of the graph is simulated, and in which the true target follows its branch, unless the false one leads to it or something placed before does |
| `Flatten.AssembledFacts` | libpcap-1.4.0/optimize.c:2004-2145 | in a finished array the root is at 0, jumps go forward and fit, the targets of branches lie where the traversal puts them, and every run agrees with the graph |
| `Trees.ExitsExact` | libpcap-1.4.0/gencode.c:612-640 | the leaves still unresolved on a side of an and/or/not tree are exactly those whose exit on that side leaves the tree |
| `Trees.ExitsMeet` | libpcap-1.4.0/gencode.c:612-640 | a block on both exit lists is the last test of the tree |
| `Trees.LinkedRun` | libpcap-1.4.0/gencode.c:571-640 | walking a resolved tree reaches the accepting or the rejecting block as left-to-right short-circuit evaluation says, executing the same tests |
| `Backpatch.Generator.Backpatch` | libpcap-1.4.0/gencode.c:535-551 | resolves exactly the links of the chained list and nothing else |
| `Backpatch.Generator.Merge` | libpcap-1.4.0/gencode.c:553-568 | splices the second list behind the first, through the link field that sense does not use |
| `Backpatch.Generator.GenAnd` | libpcap-1.4.0/gencode.c:612-622 | joins two trees: true exits of the left lead to the right, false exits of both form one list; both lists stay threaded |
| `Backpatch.Generator.GenOr` | libpcap-1.4.0/gencode.c:624-633 | joins two trees: false exits of the left lead to the right, true exits of both form one list |
| `Backpatch.Generator.GenNot` | libpcap-1.4.0/gencode.c:635-640 | flipping sense exchanges the two lists and changes no block |
| `Backpatch.Generator.FinishParse` | libpcap-1.4.0/gencode.c:571-610 | resolves every exit: true to the snaplen return, false to the zero return |
| `Backpatch.Generator.NewBlock` | libpcap-1.4.0/gencode.c:358-371 | adds one block, alone on both of its lists |
| `Backpatch.JoinHolds` | libpcap-1.4.0/gencode.c:612-633 | the two-list invariant survives a join |
| `Backpatch.HoldsKept` | libpcap-1.4.0/gencode.c:553-640 | the invariant of a tree survives growth of the table elsewhere |
| `Meanings.MeansAnd` | libpcap-1.4.0/gencode.c:612-622 | a joined tree means the short-circuit conjunction, faults in evaluation order |
| `Meanings.MeansOr` | libpcap-1.4.0/gencode.c:624-633 | and the short-circuit disjunction |
| `Meanings.MeansNot` | libpcap-1.4.0/gencode.c:635-640 | and the negation |
| `Meanings.MeansKept` | libpcap-1.4.0/gencode.c:553-640 | the meaning of a tree does not depend on links or on blocks added later |
| `Tests.GenNcmp` | libpcap-1.4.0/gencode.c:742-766 | a masked comparison means what it says for every packet, too short packets faulting; reverse negates inequalities |
| `Tests.GenCmp` | libpcap-1.4.0/gencode.c:642-650 | equality of an unmasked field |
| `Tests.GenBcmp` | libpcap-1.4.0/gencode.c:697-728 | for any length from 1 up the tests accept exactly the packets holding the given bytes at the offset |
| `Tests.BytesJoin` | libpcap-1.4.0/gencode.c:697-728 | matching the head and then the tail of a byte string is matching the string, too short packets included |
| `Tests.PackExact` | libpcap-1.4.0/gencode.c:705-724 | bytes are equal exactly when the words packed from them are |
| `Tests.GenPortAtom` | libpcap-1.4.0/gencode.c:5023-5036 | compares the 16-bit field at four times the header-length nibble plus the offset (section 3.1 of RFC 791) |
| `Tests.GenIpFrag` | libpcap-1.4.0/gencode.c:4998-5020 | accepts exactly when the fragment offset is zero |
| `Tests.GenPortOp` | libpcap-1.4.0/gencode.c:5039-5078 | protocol byte, fragment offset and the selected port or ports, in that order: for every packet the tests mean the port filter |
| `Frames.PortFilter` | libpcap-1.4.0/gencode.c:5039-5078 | on an IPv4 frame built from type, header of any length, protocol, fragment field, ports and payload, `src port` is that the source port is the number asked for, `dst port` that the destination port is, and the others that either or both are, where protocol and fragment fit |
| `Tests.GenRelation` | libpcap-1.4.0/gencode.c:6881-6925 | the checks of the operands and then the comparison of the two 32-bit values; fails exactly when registers run out |
| `Tests.GenProtoAbbrev` | libpcap-1.4.0/gencode.c:4757-4901 | the test for a protocol: the protocol byte of IPv4 packets and, for TCP, UDP, ESP, AH, PIM and SCTP, the next header of IPv6 packets or of a fragment header in them |
| `Frames.ProtocolIn4` | libpcap-1.4.0/gencode.c:4757-4901 | a protocol is found exactly in the IPv4 datagrams built with it |
| `Frames.ProtocolIn6` | libpcap-1.4.0/gencode.c:4757-4901 | in IPv6 packets exactly TCP, UDP, ESP, AH, PIM and SCTP are found, in the next header or in that of a fragment header behind it |
| `Tests.GenFilter` | libpcap-1.4.0/gencode.c:612-766 | for every well-formed filter the tree generated means the filter, for every packet; it fails exactly when a relation needs more than 16 registers |
| `Frames.Connectives` | libpcap-1.4.0/gencode.c:612-640 | when a conjunction, a disjunction and a negation accept, and when they fault |
| `Frames.BytesFound` | libpcap-1.4.0/gencode.c:697-728 | a byte string that stands at an offset of the frame is found there, and no other |
| `Frames.BytesShort` | libpcap-1.4.0/gencode.c:697-728 | a byte string that would end behind the packet faults |
| `Frames.Values` | libpcap-1.4.0/gencode.c:6927-7009 | constants, the wire length, negation and binary operations have the values of the machine's arithmetic |
| `Frames.MaskedFields` | libpcap-1.4.0/gencode.c:742-766 | a masked field equals a value exactly if each bit does; order and the test of bits likewise, and their reverse |
| `Frames.Relations` | libpcap-1.4.0/gencode.c:6903-6923 | a relation whose checks pass compares the two numbers: equal, greater, not less, or the reverse |
| `Frames.IndexedLoads` | libpcap-1.4.0/gencode.c:6648-6880 | a field written into a frame, into its payload, or into the segment behind an IPv4 header of any length, is what the load from that layer at that place gives |
| `Frames.TransportTest` | libpcap-1.4.0/gencode.c:6832-6868 | a test of a byte of the segment accepts exactly the first fragments of that protocol in which the byte is the value |
| `Frames.OtherType` | libpcap-1.4.0/gencode.c:6744-6800 | in a frame of another type nothing is accepted |
| `Frames.LeftChecked` | libpcap-1.4.0/gencode.c:6983-7009 | a relation accepts only packets that all loads on the left of its operands are made for |
| `Filters.ChecksExact` | libpcap-1.4.0/gencode.c:6744-6868 | checks are enough for a load from a layer exactly when they ask for that layer, or no packet can pass them |
| `Filters.RelationChecks` | libpcap-1.4.0/gencode.c:6903-6923 | every packet that passes the checks of a relation is one that all its loads make sense for, exactly when the checks kept ask for the layer of each load or contradict each other |
| `Filters.ChecksHold` | libpcap-1.4.0/gencode.c:6983-7009 | a relation whose checks cover its loads accepts only such packets |
| `Filters.RightOperandUnchecked` | libpcap-1.4.0/gencode.c:6983-7009 | otherwise not: the checks of a right operand are dropped, and a frame of another type is accepted |
| `Regs.Registers.AllocReg` | libpcap-1.4.0/gencode.c:7029-7046 | fails exactly when all registers are in use; otherwise returns the first free one from the current one on, round the table, and marks it alone |
| `Regs.Registers.FreeReg` | libpcap-1.4.0/gencode.c:7051-7056 | frees exactly that register |
| `Arith.GenLoadi` | libpcap-1.4.0/gencode.c:6943-6963 | the constant is left in the new register, which was free; registers in use are kept |
| `Arith.GenLoadLen` | libpcap-1.4.0/gencode.c:6927-6941 | likewise the wire length |
| `Arith.GenLoad` | libpcap-1.4.0/gencode.c:6648-6880 | likewise the load at the computed offset in the frame, in the payload of an Ethernet type, or in the transport header behind an IPv4 header of any length, with the checks for each, faulting exactly when the load or the header length leaves the packet; the index register is freed |
| `Arith.TransportSteps` | libpcap-1.4.0/gencode.c:6832-6855 | header length plus index in X, then the load relative to it: the word at that place of the transport header, modulo 2^32 |
| `Arith.GenNeg` | libpcap-1.4.0/gencode.c:6965-6980 | likewise the 32-bit negation, in the same register |
| `Arith.GenArth` | libpcap-1.4.0/gencode.c:6983-7009 | likewise a binary operation; it never runs out of registers |
| `Arith.YieldsPair` | libpcap-1.4.0/gencode.c:6983-7009 | the code of the right operand never overwrites the register of the left one |
| `Arith.GenExpr` | libpcap-1.4.0/gencode.c:6648-7009 | for every expression: the 32-bit value in the register, or a fault exactly when the expression has no value; fails exactly when it needs more registers than are free |
| `Intern.EqSlist` | libpcap-1.4.0/optimize.c:1729-1746 | true exactly when the lists are equal up to NOPs |
| `Intern.EqBlk` | libpcap-1.4.0/optimize.c:1748-1757 | true exactly when branch, successors and statements up to NOPs are equal |
| `Intern.Interner.MarkCode` | libpcap-1.4.0/optimize.c:1702-1723 | marks exactly the reachable blocks |
| `Intern.Interner.FindLinks` | libpcap-1.4.0/optimize.c:1770-1785 | links lead to later, equal, unlinked marked blocks, and every marked block with a later equal has one |
| `Intern.RedirectedRun` | libpcap-1.4.0/optimize.c:1786-1798 | moving edges along links keeps every run, step by step |
| `Intern.SumRises` | libpcap-1.4.0/optimize.c:1786-1800 | a round that moves an edge raises the sum of successor indices |
| `Intern.SettledShared` | libpcap-1.4.0/optimize.c:1759-1800 | when no edge moves, no two distinct reachable blocks are equal |
| `Intern.Interner.InternBlocks` | libpcap-1.4.0/optimize.c:1759-1800 | the loop ends, keeps every run exactly, and reaches maximal sharing |
| `Levels.Leveler.FindLevels` | libpcap-1.4.0/optimize.c:192-226 | every reachable block gets one more than the larger level of its successors and is listed once under it; no level reaches the number of blocks |
| `Levels.LevelIsLongest` | libpcap-1.4.0/optimize.c:192-226 | the level is the length of a longest path to a leaf |
| `Dominance.SweepExact` | libpcap-1.4.0/optimize.c:232-290 | the sets of a finished sweep hold exactly the nodes on every path from an entry |
| `Dominance.SweepStep` | libpcap-1.4.0/optimize.c:250-259 | one visit, after all predecessors, keeps the sweep going |
| `Dominators.DominatorSets.FindDom` | libpcap-1.4.0/optimize.c:232-260 | x is in the set of a reachable block exactly when every path from the root to the block goes through x |
| `Dominators.DominatorSets.PropEdom` | libpcap-1.4.0/optimize.c:262-270 | an edge joins its own set and restricts those of the two edges that follow it |
| `Dominators.DominatorSets.FindEdom` | libpcap-1.4.0/optimize.c:276-296 | f is in the set of a reachable edge exactly when every path from the root along the edge takes f |
| `InEdges.EdgeLists.FindInedges` | libpcap-1.4.0/optimize.c:1600-1619 | the lists hold, once each, exactly the edges that leave reachable blocks |
| `Liveness.ComputeLocalUd` | libpcap-1.4.0/optimize.c:416-472 | use and kill give the atoms live before the block for every set live after it, as a backward reading does |
| `Liveness.UseDef.FindUd` | libpcap-1.4.0/optimize.c:477-500 | every reachable block ends with live-out the union of its successors' live-in sets, and live-in by a backward reading |
| `Liveness.LivenessSound` | libpcap-1.4.0/optimize.c:477-500 | two states that agree on the live atoms of a block finish the run alike, faults included, when return blocks return constants or handle A themselves |
| `Liveness.ReturnLiveness` | libpcap-1.4.0/optimize.c:448-472 | a returning block's live set decides its outcome exactly when the block does not return an A it never touches: the use by the return is not counted |
| `DeadStores.Sweeper.DeadStmt` | libpcap-1.4.0/optimize.c:1102-1124 | one statement: what it reads is no longer pending, and a store it overwrites unread becomes a NOP; equal states after it |
| `DeadStores.Sweeper.OptDeadstores` | libpcap-1.4.0/optimize.c:1126-1144 | exactly the statements whose atom is overwritten unread, or neither live after the block nor read by its branch, become NOPs; without a fault the block ends as before on the other atoms |
| `DeadStores.DeadStoresSafe` | libpcap-1.4.0/optimize.c:1126-1144 | dropping dead stores in any set of blocks never changes the result of a run that does not fault |
| `Numbering.ValueTable.InitVal` | libpcap-1.4.0/optimize.c:532-539 | no numbers, no constants, empty chains |
| `Numbering.ValueTable.F` | libpcap-1.4.0/optimize.c:542-571 | returns the one number of a key, adding it if new; numbers given before keep key and meaning |
| `Values.TableConsts` | libpcap-1.4.0/optimize.c:542-571 | distinct constants have distinct numbers |
| `Values.SymStepSound` | libpcap-1.4.0/optimize.c:917-1100 | if every known atom holds its term's value before a statement, it does after |
| `Numbering.ValueTable.FoldOp` | libpcap-1.4.0/optimize.c:582-635 | folds to the 32-bit result, of which `WordLaws.ComputeNumbers` and `ComputeBits` say what it is; none exactly for a division by zero |
| `Numbering.ValueTable.NumberLoad` | libpcap-1.4.0/optimize.c:924-960 | loads that read no atom: numbered, and dropped when the atom has the value already |
| `Numbering.ValueTable.NumberInd` | libpcap-1.4.0/optimize.c:931-943 | an indexed load with constant X becomes an absolute one |
| `Numbering.ValueTable.NumberMove` | libpcap-1.4.0/optimize.c:1066-1099 | moves, reloads and stores: numbered, constants loaded directly, redundant ones dropped |
| `Numbering.ValueTable.NumberNeg` | libpcap-1.4.0/optimize.c:965-973 | negation, folded when A is constant |
| `Numbering.ValueTable.NumberAluK` | libpcap-1.4.0/optimize.c:975-1015 | an operation with a constant: no-ops dropped, zero results and constants folded |
| `Numbering.ValueTable.NumberAluX` | libpcap-1.4.0/optimize.c:1017-1064 | an operation with X: a constant X becomes the operand, a zero A is simplified |
| `Numbering.ValueTable.OptStmt` | libpcap-1.4.0/optimize.c:917-1100 | for every statement: at most 2 new numbers; the statement left and the numbers of the atoms are exactly those that the keys in the table call for; without alter the numbers stand for exactly the symbolic values; with alter the statement left does the same wherever the original does not fault and what it reads is known, and nothing foldable is left; it fails exactly for a division by zero met while folding |
| `Treatments.ExactlyGrows` | libpcap-1.4.0/optimize.c:542-571 | what becomes of a statement does not depend on numbers given out later |
| `Treatments.TreatedAluX` | libpcap-1.4.0/optimize.c:1017-1064 | what becomes of an operation with X is right: it does the same, and its number says what it computes |
| `Rewrites.StoreRewritten` | libpcap-1.4.0/optimize.c:573-580 | replacing a statement by an equivalent one, or by nothing when the atom has the value, keeps the state |
| `Rewrites.IndToAbs` | libpcap-1.4.0/optimize.c:934-943 | an indexed load with a constant index is the absolute load at the wrapped sum |
| `Rewrites.ZeroAccumulator` | libpcap-1.4.0/optimize.c:1047-1064 | with A zero, sums are X and the other results but the difference are 0 |
| `ValueFlow.OptStmts` | libpcap-1.4.0/optimize.c:1191-1194 | the statements of a block in order: the numbers describe its symbolic execution, altered statements do the same, and both are exactly what the table calls for |
| `ValuePass.Inherit` | libpcap-1.4.0/optimize.c:1162-1190 | an atom starts with the number all predecessors agree on, or 0 |
| `ValuePass.Pass.OptBlk` | libpcap-1.4.0/optimize.c:1146-1240 | one block: entry numbers, statements, operand number; at most 2 numbers per statement and 1 for the block |
| `ValuePass.Pass.OptBlks` | libpcap-1.4.0/optimize.c:1556-1567 | all reachable blocks, top level first; no number reaches 3 times the statements and blocks, the size of the table |
| `ValuePass.BudgetBound` | libpcap-1.4.0/optimize.c:1957-1971 | the numbers a pass may use are at most two thirds of the table |
| `ValueSound.ValuesSound` | libpcap-1.4.0/optimize.c:1162-1197 | on every run, at the end of every block reached without a fault, each atom whose number depends on nothing unknown holds the value of that number on the packet, through hash chains and merge points |
| `ValueSound.NumbersSound` | libpcap-1.4.0/optimize.c:1162-1197 | if no block reads an atom without a number, that is so for every nonzero number |
| `ValueSound.AlterSafe` | libpcap-1.4.0/optimize.c:917-1100 | a pass that rewrites statements keeps the result of every run that does not fault, if no block reads an atom without a number |
| `UnknownNumbers.MoveLost` | libpcap-1.4.0/optimize.c:573-580 | for every atom, a graph of one block whose only move, between two atoms numbered 0, the pass drops, and the result changes |
| `UnknownNumbers.NegationLost` | libpcap-1.4.0/optimize.c:542-571 | a graph of one block in which one number is given to results of unknown operands that differ, a move is dropped, and the result changes |
| `Cleanup.FinishBlk` | libpcap-1.4.0/optimize.c:1222-1232 | the end of the treatment of a block: no statements are left if it returns, or if nothing of it is used and A and X end with the known numbers they came with; otherwise exactly the needed ones are |
| `Cleanup.NeededLive` | libpcap-1.4.0/optimize.c:1102-1144 | a store is kept exactly when its atom is live after it |
| `Cleanup.DeadDropped` | libpcap-1.4.0/optimize.c:1102-1144 | dropping any choice of stores to atoms not live after them keeps the atoms in use, from any states that agree on what is live |
| `Cleanup.NumbersUnmoved` | libpcap-1.4.0/optimize.c:1196-1223 | A and X keep their values through a block that may be emptied, whatever it stores |
| `Cleanup.BlockCleaned` | libpcap-1.4.0/optimize.c:1191-1231 | what is left of a block agrees with the original on every atom used by its branch or read later |
| `Cleanup.CleanupSafe` | libpcap-1.4.0/optimize.c:1146-1240 | the whole pass keeps the result of every run that does not fault, if what the rewritten blocks read has not been dropped; emptied blocks may even leave A and X in use |
| `Cleanup.NoMoreReads` | libpcap-1.4.0/optimize.c:1146-1240 | that is so where rewriting makes no block read more of what earlier blocks left than before |
| `LostStores.StoresNumbered` | libpcap-1.4.0/optimize.c:1066-1099 | for every atom but A, a finished pass over a graph of four blocks leaves the first block as it is and drops the load and the store of the second |
| `LostStores.StoreLost` | libpcap-1.4.0/optimize.c:1135-1143 | cleaning up after that pass drops the store of the first block too, and the result changes |
| `Setters.NumberedSet` | libpcap-1.4.0/optimize.c:1162-1190 | an atom that has a number on entry to a block has been set by a block before it |
| `Setters.ShortReads` | libpcap-1.4.0/optimize.c:917-1100 | where an atom the block sets has no number on entry, rewriting leaves no statement that reads it from outside |
| `Setters.SetOnceCovered` | libpcap-1.4.0/optimize.c:1146-1240 | so nothing dropped is read, in every graph whose blocks set what they read and no atom but A twice on a path |
| `EdgeFold.FoldEdgeSound` | libpcap-1.4.0/optimize.c:1266-1316 | after edge f, the block goes where fold_edge says, unless it faults |
| `EdgeFold.FoldEdgeExact` | libpcap-1.4.0/optimize.c:1286-1316 | two comparisons of the same A with constants for equality: the second is decided exactly when every A that takes the edge takes one side of it, and then to that side |
| `EdgeFold.FoldEdgeUnknown` | libpcap-1.4.0/optimize.c:1286-1300 | any other two comparisons of one kind of the same A: the second is decided exactly when that follows from the numbers of the operands, whatever they stand for |
| `EdgeFold.EdgeFolder.UseConflict` | libpcap-1.4.0/optimize.c:1250-1264 | true exactly when an atom live after the target has another number at its end |
| `EdgeFold.MoveKeeps` | libpcap-1.4.0/optimize.c:1335-1370 | moving an edge past a block its dominators decide keeps every walk from the root, but for faults |
| `EdgeFold.EdgeFolder.OptJ` | libpcap-1.4.0/optimize.c:1318-1370 | moves only the given edge, keeps every walk that does not fault, and moves it exactly to its goal: past a branch with one target, then by the first dominator that decides the next block without a conflict, until there is none |
| `EdgeFold.EdgeFolder.FoldEdges` | libpcap-1.4.0/optimize.c:1577-1582 | the whole sweep, bottom level first: results kept, levels still falling, every edge of every reachable branch exactly at its goal, all other blocks as they were |
| `EdgeFold.PromotedSettled` | libpcap-1.4.0/optimize.c:1335-1370 | at its goal no dominator decides the next block any more, unless an atom in use would have another number |
| `GeneratorForm.CompiledForm` | libpcap-1.4.0/optimize.c:1266-1370 | graphs made by the generator are in generator form, with nothing carried between blocks |
| `GeneratorForm.WholeRun` | libpcap-1.4.0/optimize.c:1266-1370 | in generator form a run is the walk along one choice for each block, whatever the edges |
| `GeneratorForm.ChoicesSound` | libpcap-1.4.0/optimize.c:1230-1240 | those choices are the comparisons of what the numbers stand for |
| `GeneratorForm.FoldedRun` | libpcap-1.4.0/optimize.c:1577-1582 | edge folding keeps the result of every run that does not fault, on a graph in generator form: words the root sets may be read anywhere until another block sets them |
| `GeneratorForm.PromotedCarries` | libpcap-1.4.0/optimize.c:1577-1582 | the promoted edges lead past blocks, never to ones that are reached with less of what the root set |
| `Crossings.NoneCrosses` | libpcap-1.4.0/optimize.c:1250-1264 | if no block between the root and a reader sets what it reads, each block relies on what the root leaves, and the graph is in generator form if nothing unset is read |
| `Crossings.NoneCrossesKnown` | libpcap-1.4.0/optimize.c:1162-1190 | then every atom a block reads has, on entry, the number it has at the end of the root |
| `Crossings.CrossingNumbers` | libpcap-1.4.0/optimize.c:1162-1197 | the numbers that any finished pass over a small graph, in which one block sets an atom for the next, has to give |
| `Crossings.CrossingLost` | libpcap-1.4.0/optimize.c:1250-1370 | the sweep has to move the first edge of that graph past the block that sets the atom, for words and X because the branch is decided, for A because both its targets are one, and the result changes, for every atom, state and packet |
| `Crossings.UnsetLost` | libpcap-1.4.0/optimize.c:1286-1296 | two words nobody has set share a number: the edge moves past the second comparison, and the result changes |
| `Pullup.SingleEntry` | libpcap-1.4.0/optimize.c:1404-1440 | a block of the chain below the first, if the first dominates it, has exactly one incoming edge |
| `Pullup.PulledDescends` | libpcap-1.4.0/optimize.c:1441-1462 | the pulled-up graph is acyclic |
| `Pullup.PulledWalk` | libpcap-1.4.0/optimize.c:1441-1462 | the outcome is kept from every block outside the moved stretch, unless the original run or the pulled block faults |
| `Pullup.Puller.PullupChain` | libpcap-1.4.0/optimize.c:1373-1554 | pulls exactly when the chain the source looks for exists, and then safely; otherwise changes nothing |
| `Pullup.Puller.OrPullup` | libpcap-1.4.0/optimize.c:1373-1463 | chains that share the true branch |
| `Pullup.Puller.AndPullup` | libpcap-1.4.0/optimize.c:1465-1554 | chains that share the false branch |
| `Pullup.Puller.Retarget` | libpcap-1.4.0/optimize.c:1444-1455 | each of the listed edges, and no other, now leads to the pulled block |
| `GeneratorForm.PulledRun` | libpcap-1.4.0/optimize.c:1373-1554 | a pull keeps the result of every run that does not fault, in generator form, if the pulled block does not fault |
| `Pullup.PulledAnyway` | libpcap-1.4.0/optimize.c:1441-1462 | and also if, wherever the pulled block faults, all blocks that lead to the chain do: the run does not come there |
| `ShownFaults.FaultShows` | libpcap-1.4.0/optimize.c:917-1100 | if all that may fault in a block feeds an atom, then where the block faults the symbolic value of that atom cannot be had |
| `PullFaults.FaultBefore` | libpcap-1.4.0/optimize.c:1385-1392 | so where the pulled block faults, the blocks that lead to the chain fault as well: their accumulators have the same number |
| `PullFaults.PullKeeps` | libpcap-1.4.0/optimize.c:1373-1554 | a pull keeps the result of every run that does not fault, in generator form, if what may fault feeds the accumulator in every block |
| `Peephole.Peeper.RewritePair` | libpcap-1.4.0/optimize.c:684-703 | st M[k]; ldx M[k] becomes st M[k]; tax, and ld #k; tax becomes ldx #k; txa; the block ends in the same state |
| `Peephole.IndexFold` | libpcap-1.4.0/optimize.c:704-795 | ld #k; addx; tax; ild [x+o] is ild [x+o+k] modulo 2^32 but for X |
| `Peephole.IndexFoldExact` | libpcap-1.4.0/optimize.c:756-790 | it is right for all that read the atoms of S afterwards if and only if X is not one of them or k is 0 |
| `Peephole.HeaderFoldExact` | libpcap-1.4.0/optimize.c:756-790 | and so it is behind a header-length load |
| `Peephole.Peeper.RewriteIndexed` | libpcap-1.4.0/optimize.c:704-795 | rewrites that pattern wherever it occurs, with or without a header-length load and NOPs in it |
| `Peephole.Peeper.PeepStmts` | libpcap-1.4.0/optimize.c:664-796 | the statements left are exactly what scanning the statements pair by pair makes of them, NOPs left out; they keep the live atoms of the block, if the rule for indexed loads does not apply or X is set again before it is read after one that rewrites with a constant other than 0; the last operation stays the last |
| `Peephole.PairScanDone` | libpcap-1.4.0/optimize.c:684-703 | after the scan no word is reloaded into X that has just been stored, and no constant is moved to X |
| `Peephole.StaleX` | libpcap-1.4.0/optimize.c:756-758 | a block that reads X after such a load ends with another accumulator |
| `Peephole.LastKeeps` | libpcap-1.4.0/optimize.c:797-852 | absorbing the last operation into the comparison keeps the successor and every atom but A |
| `Peephole.LastRuleExact` | libpcap-1.4.0/optimize.c:797-852 | the last statement goes exactly if it is a difference with a constant, with a known X or compared with 0, or a mask compared with 0, behind which A is not used |
| `Peephole.JsetKeeps` | libpcap-1.4.0/optimize.c:853-862 | the rules for jset #0 and jset #0xffffffff keep the successor exactly unless the second is used with A zero and distinct targets |
| `Peephole.Peeper.OptPeep` | libpcap-1.4.0/optimize.c:654-909 | the whole pass, on any block: it leaves exactly what the scan, the rule for the last statement and the rules for the branch make of it, and aborts exactly on a block that returns after statements with a known accumulator; otherwise same live atoms, same successor and same returned accumulator where the block does not fault, unless X is read after a folded load, or the block is or is made a test of all bits and A is 0, and then the successor is the same exactly if the targets are |
| `Peephole.PeepedPairs` | libpcap-1.4.0/optimize.c:684-703 | what it leaves reloads no word just stored and moves no constant to X |
| `Peephole.KnownOneTarget` | libpcap-1.4.0/optimize.c:853-909 | what it leaves compares A with no X that is known, and has one target where A is known and compared with a constant, and where no bits or all bits are tested |
| `Peephole.OnesExact` | libpcap-1.4.0/optimize.c:841-862 | exactly which blocks come to test all bits: those that do already, and comparisons with 0 behind an AND with all ones that the scan gets to, with A unused later |
| `PeepRuns.PeepsSafe` | libpcap-1.4.0/optimize.c:654-909 | over whole runs, with the constants that numbering knows |
| `PeepRuns.TameSettled` | libpcap-1.4.0/optimize.c:704-795 | where constants are stored at once, as in all generated code, the rule for indexed loads never applies before rewriting |
| `Optimize.PeepGenerated` | libpcap-1.4.0/optimize.c:654-909 | so of a generated graph the peephole rules, applied to every reachable block, keep the meaning of the filter, unless a block tests all bits |
| `Peephole.OperationNotConst` | libpcap-1.4.0/optimize.c:884-909 | after numbering, altered or not, A has no constant number where the block left ends in an operation, so the last rule does not see a rewritten comparison |
| `ReadLoop.Reader.Begin` | libpcap-1.4.0/pcap-bpf.c:804-908 | continues in the buffer or reads the next one, retrying when interrupted; unless a break comes, the first answer that is no interruption decides, and exactly the answers up to it are used up: a failure gives PCAP_ERROR, would-block 0; a pending break is reported first and cleared, losing nothing |
| `ReadLoop.Reader.ReadBpf` | libpcap-1.4.0/pcap-bpf.c:804-1025 | delivers, in order and once each, the next filter-passing packets of the buffer, at most cnt when cnt is positive; the result is their number, or PCAP_ERROR exactly if the first answer that is no interruption is a failure, or 0 with nothing delivered if it is would-block or there is none; what is left is what was pending; a break before the first packet is reported, a later one stays for the next call |
| `ReadLoop.Reader.Session` | libpcap-1.4.0/pcap-bpf.c:804-1025 | over any sequence of calls, counts and break requests delivered and pending packets are together always the same sequence, and the results count what was delivered; without breaks results, packets and what is left are those of one call after the other |
| `ReadLoop.TakeFirst` | libpcap-1.4.0/pcap-bpf.c:927-1020 | what a call hands over are the first packets of the buffer that pass: as many as allowed, and all of them if there are fewer |
| `ReadLoop.ReadBack` | libpcap-1.4.0/pcap-bpf.c:955-1000 | a buffer built from records, each with its header and padding, gives back those records |
| `IfList.GetInstance` | libpcap-1.4.0/inet.c:104-127 | the number in the name, or 0; INT_MAX for "any" |
| `IfList.InstanceOfNumbered` | libpcap-1.4.0/inet.c:104-127 | a word followed by the decimal digits of n has instance n, for every n |
| `IfList.InstanceOfWord` | libpcap-1.4.0/inet.c:104-127 | a name without digits, other than "any", has instance 0 |
| `IfList.AnyBehind` | libpcap-1.4.0/inet.c:109-115 | where "any" does not come last, the other name has digits, and the number at its end is at least INT_MAX |
| `IfList.DeviceList.Place` | libpcap-1.4.0/inet.c:257-327 | walks to the place behind everything that may stand before the new device |
| `IfList.DeviceList.Splice` | libpcap-1.4.0/inet.c:329-350 | inserts one node between two neighbours of the linked list |
| `IfList.InsertStable` | libpcap-1.4.0/inet.c:257-350 | putting a new arrival there keeps the list a stable sort of the arrivals |
| `IfList.DeviceList.AddOrFindIf` | libpcap-1.4.0/inet.c:129-354 | names stay unique and the list stays the stable sort of its arrivals by loopback and instance; a known or unopenable device changes nothing |
| `IfList.DeviceList.LookupDev` | libpcap-1.4.0/inet.c:670-710 | returns a device exactly when there is one that is no loopback, and then the first to arrive of those with the least instance; "any" only where every other one has a number of at least INT_MAX |
| `IfList.DeviceList.FindAll` | libpcap-1.4.0/inet.c:129-354 | after any sequence of requests the list is the stable sort of exactly the devices that opened, each name once, in the order they came |

## Left out

- Addresses: blocks, statements and edges live in tables (sequences held in class fields and reassigned) and are named by their index, where the C code uses pointers; statement lists are sequences, so splicing with `sappend` is concatenation. `IfList` keeps real linked nodes.
- Global variables become fields of one class per pass; the `done` flag and the counters it feeds are not modelled.
- `opt_loop`: its repetition until nothing changes has no decreasing measure in the code, so the number of rounds is a parameter.
- `Optimize.BranchRounds`: drops dead stores before it numbers statements, not block by block in between, and leaves out peephole rewriting and pull-up, which have rounds of their own with conditions that the code does not check.
- `Optimize.PcapCompileOptimized`: leaves out those two and the rewriting of statements, and says nothing of packets on which the filter itself faults: passes may remove the load that does.
- `Optimize.PcapCompileRewritten`: leaves out `opt_root`, whose class of graphs rewriting may leave, and drops dead stores after all statements are rewritten, not block by block.
- Interplay inside one round: `opt_peep` can exchange the successors of a block after edge dominators were found; `EdgeFold` is stated for dominators of the graph it sweeps, `Pullup` for dominators and in-edges of the graph it changes.
- `find_closure`: its sets are not used by any pass.
- `StatementRounds.StatementRound`: cleans up the blocks after all of them have been numbered, where the code does so block by block (numbering reads the numbers of earlier blocks, never their statements), and leaves out `opt_peep`; its graphs return constants only. `StatementRounds.AtomsExact` says exactly which atoms may be set twice in general; of one given graph it is only shown that the condition is enough, since whether a lost store changes some result is the question whether two programs differ on some packet.
- `Cleanup.CleanupSafe`: its condition is on what is live in the graph left, for graphs that `Setters.SetOnce` does not cover.
- `Cleanup.NoMoreReads`: so is its hypothesis.
- `Liveness.LivenessSound`: asks that return blocks return constants or touch A; the exact condition per block is `Liveness.ReturnLiveness`.
- `GeneratorForm.FoldedRun`: asks for generator form, of one given graph; `FoldRounds.FoldExact` says which classes of graphs are safe.
- `GeneratorForm.PulledRun`: the pulled block must not fault where it is moved to; `PullFaults.PullKeeps` says when it does not.
- `Peephole.Peeper.OptPeep`: says nothing of the atoms where X is read after a folded load, but for what the rule does to them (`Peephole.IndexFoldExact`). That rewriting leaves no such read in generated graphs is not shown.
- `PullRounds.PullSweep`: finds levels, dominators, incoming edges and numbers again before every pull, where the code uses those from before the sweep.
- Shifts by 32 or more, undefined in C, shift everything out.
- Link types: headers are those of Ethernet without encapsulation; the per-link-type tables and variable-length link headers are not modelled, nor is IPv6 but for the test of its protocol.
- Compiled expressions (`struct arth`) are values; the protocol checks they carry are lists, turned into blocks when the relation is generated, conjoined from the left.
- `gen_byteop` with `&` or `|`, block-local jumps, `gen_protochain`, name lookups, the scanner and the parser tables: the expression tree is the input.
- `Filters`: byte strings end within 2^32 of the start of the packet.
- Allocation failure, `longjmp` exits other than running out of registers and dividing by zero, and message texts.
- `ReadLoop`: `read()` is a list of answers given in advance, break requests may come at any poll, the filter is any predicate on the packet handed over; buffers hold whole records (little-endian headers of 18 bytes, word size 4), zero-copy mode, FDDI padding and operating-system work-arounds are left out.
- `IfList`: whether a device opens, and whether it is a loopback, are inputs; addresses and descriptions are left out, and `atoi` does not overflow.
