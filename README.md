# libchess move-generation core in Dafny

This project models the core of libchess, a C++ chess library built on bitboards. The model covers:

- squares and 64-square bitboards, including shifts, iteration and `squares_between`;
- the knight and king masks, the slider occupancy masks, the ray-caster and the subset enumerator that fill the magic table;
- the `Position` state and the attack queries: `attackers`, `square_attacked`, `checkers`, `squares_attacked`, `king_allowed` and `pinned`;
- the legal move generator, split into `legal_captures`, `legal_noncaptures`, the pawn and promotion helpers, `legal_moves`, `check_evasions`, `count_moves` and `is_legal`;
- `makemove`, `undomove`, `predict_hash` and `perft`;
- the FEN reader `set_fen` and writer `get_fen`;
- the direct-mapped transposition table of `examples/tt.hpp`.

Modules follow the source files:

| module | file | what it holds |
|---|---|---|
| `Squares` | `square.dfy` | squares |
| `Bitboards`, `Bits` | `bitboard.dfy`, `bits.dfy` | bitboards. `Bitboards` treats a bitboard as a set of squares; `Bits` proves the `bv64` operations of the source equal to those set operations |
| `Movegen` | `movegen.dfy` | the attack tables |
| `Pieces`, `Boards`, `Validity` | `pieces.dfy`, `board.dfy`, `valid.dfy` | sides, pieces, the board record and `valid()` |
| `Zobrist`, `Hashing` | `zobrist.dfy` | hashing |
| `Making`, `Predict`, `Effects`, `AfterMove`, `HashMatch` | `make.dfy`, `predict.dfy`, `effects.dfy`, `aftermove.dfy`, `hashmatch.dfy` | make, undo and the hash prediction |
| `Attacks`, `Pins` | `attacks.dfy`, `pinned.dfy` | the attack queries |
| `Pawns`, `Emit`, `Captures`, `Noncaptures`, `Legal` | `pawns.dfy`, `emit.dfy`, `captures.dfy`, `noncaptures.dfy`, `legal.dfy` | the generator |
| `Fen` | `fen.dfy` | FEN text |
| `Positions` | `position.dfy` | class `Position`, whose methods update the board in place and push and pop the history |
| `TranspositionTable` | `tt.dfy` | class `TT` over an array |

Several files come from different revisions and disagree with each other. The model makes one consistent choice in each case:

- **En-passant field.** `ep_` holds a file index 0..7, or 0xFF when there is none. `makemove`, `get_fen` and the generators use this encoding. `valid()` checks the file instead of the rank of a square. How `set_fen` stores the field is listed under Findings.
- **History record.** Each record holds the en-passant field, the castling flags, the half-move clock and the hash. `undomove` reads all four, although the record declared in `position.hpp` has no hash or clock.
- **`makemove` clocks and hash.** `makemove` updates the hash to `predict_hash(m)`, resets the half-move clock on pawn moves and captures, and advances the full-move number after Black's move. This is what the tests and `undomove` expect. The code as written, which updates none of them, is kept as `Making.MakeBoardAsWritten` for the Findings.
- **`valid()`.** The predicate is the one in `src/valid.cpp`, not the older inline one in `position.hpp`.
- **`legal_captures`.** The generator is the out-of-line one in `src/legal_captures.cpp`, not the inline stub that returns an empty list.
- **Zobrist hash.** A hash is the set of keys XOR-ed into it. Each key is named by what it stands for (piece on square, side to move, castling right, en-passant file), and XOR-ing a key toggles its membership. Two equal key sets give equal 64-bit hashes under any key table, so hash equalities proved here hold for every choice of keys.
- **One-argument lookups.** `knight_moves(sq)` and `king_moves(sq)`, as `attackers.cpp` calls them, are the lookups with an empty occupancy.
- **Magic lookups.** `bishop_moves(sq, occ)` and `rook_moves(sq, occ)` are the ray-cast of `occ` intersected with the relevant mask. The model proves this equal to the ray-cast of the full occupancy.

## Model

| member | source | states |
|---|---|---|
| Squares.Square.Rank | src/libchess/square.hpp:57-59 | the rank is the index divided by 8; it is below 8 for every on-board square |
| Squares.Square.File | src/libchess/square.hpp:61-63 | the file is the index modulo 8, always 0..7 |
| Squares.Square.Flip | src/libchess/square.hpp:73-75 | flipping keeps the file and mirrors the rank (7 - rank), staying on the board |
| Squares.FlipBits | src/libchess/square.hpp:73-75 | XOR with 56 on an index below 64 is exactly the rank mirror 8·(7 - rank) + file |
| Squares.FlipInvolution | src/libchess/square.hpp:73-75 | flipping twice gives back the same square |
| Squares.Square.North | src/libchess/square.hpp:77-79 | one rank up on the same file, when the new index is below 64 |
| Squares.Square.South | src/libchess/square.hpp:81-83 | one rank down on the same file; from rank 1 the byte leaves the board |
| Squares.Square.East | src/libchess/square.hpp:85-87 | one file right on the same rank, except that h-file squares step onto file a of the next rank |
| Squares.Square.West | src/libchess/square.hpp:89-91 | one file left on the same rank, except that a-file squares step onto file h of the rank below; from a1 the byte wraps to the 0xFF sentinel |
| Squares.Square.ToString | src/libchess/square.hpp:46-51 | two characters: the file letter a..h then the rank digit 1..8 of this square |
| Squares.FromIndex | src/libchess/square.hpp:16-18 | an index below 64 gives an on-board square with rank·8 + file equal to the index |
| Squares.FromIndexOnBoard | src/libchess/square.hpp:57-63 | the square of index n has file n % 8 and rank n / 8 and converts to true |
| Squares.FromFileRankAsWritten | src/libchess/square.hpp:20-22 | the (file, rank) constructor as written: whatever its assertion lets through is not index 0, and on the board it has that file and rank |
| Squares.FromFileRankRejectsA1 | src/libchess/square.hpp:20-22 | the assertion `data_ != 0` rejects file 0, rank 0 (a1), although a1 is on the board |
| Squares.FromFileRank | src/libchess/square.hpp:20-22 | the intended (file, rank) constructor: every on-board pair gives the square with that file and rank |
| Squares.FromString | src/libchess/square.hpp:24-28 | for a letter a..h and a digit 1..8 the result is the on-board square of that file and rank |
| Squares.StringRoundTrip | src/libchess/square.hpp:24-51 | parsing the string form of any on-board square gives back the square |
| Squares.ParseRoundTrip | src/libchess/square.hpp:24-51 | printing the square parsed from a well-formed two-character name gives back the name |
| Squares.SentinelIsFalse | src/libchess/square.hpp:13-14 | the default square 0xFF converts to false and is off the board |
| Squares.CornerFacts | src/libchess/square.hpp:168-175 | a1 is dark and h1 light; flip swaps a1 with a8 and h1 with h8 |
| Squares.LightParity | src/libchess/square.hpp:65-71 | a square is light exactly when its rank and file differ in parity, and dark exactly when it is not light |
| Bitboards.AtCoords | src/libchess/square.hpp:20 | the index 8·r + f has file f and rank r |
| Bitboards.InNorth | src/libchess/bitboard.hpp:142-144 | a square is in `north()` iff it is above rank 1 and the square below it is in the board |
| Bitboards.InSouth | src/libchess/bitboard.hpp:146-148 | a square is in `south()` iff it is below rank 8 and the square above it is in the board |
| Bitboards.InEast | src/libchess/bitboard.hpp:150-152 | a square is in `east()` iff it is not on file a and its west neighbour is in the board |
| Bitboards.InWest | src/libchess/bitboard.hpp:154-156 | a square is in `west()` iff it is not on file h and its east neighbour is in the board |
| Bitboards.NorthShifts | src/libchess/bitboard.hpp:142-144 | every member below rank 8 moves one rank up, and every result square came from the square below it |
| Bitboards.SouthShifts | src/libchess/bitboard.hpp:146-148 | every member above rank 1 moves one rank down, and nothing else arrives |
| Bitboards.EastShifts | src/libchess/bitboard.hpp:150-152 | every member off file h moves one file right, and no result square is on file a |
| Bitboards.WestShifts | src/libchess/bitboard.hpp:154-156 | every member off file a moves one file left, and no result square is on file h |
| Bitboards.Complement | src/libchess/bitboard.hpp:102-104 | `~b` holds exactly the squares that b does not |
| Bitboards.RangeFacts | src/libchess/bitboard.hpp:53-55 | the first n squares number n, and a square is among them iff its index is below n |
| Bitboards.LightBelow | src/libchess/bitboard.hpp:253-254 | of the squares 0 .. 2k-1, exactly k are light and k are dark |
| Bitboards.ConstantCounts | src/libchess/bitboard.hpp:258-265 | Empty counts 0 and AllSquares 64; Light and Dark count 32 each, are disjoint and cover the board; `~Empty` is AllSquares and `~AllSquares` is Empty |
| Bitboards.Lowest | src/libchess/bitboard.hpp:129-132 | `lsbll` of a non-empty board is a member, and no member has a lower index |
| Bitboards.AscendingMembers | src/libchess/bitboard.hpp:11-32 | iteration yields as many squares as the board has members, and exactly its members |
| Bitboards.AscendingSorted | src/libchess/bitboard.hpp:11-32 | iteration yields the members in strictly ascending order, so each exactly once |
| Bitboards.BitboardIterator.Current | src/libchess/bitboard.hpp:16-18 | the iterator's current square is the lowest member of what remains |
| Bitboards.BitboardIterator.Next | src/libchess/bitboard.hpp:20-23 | advancing removes exactly the current square, and the remaining iteration is the old one without its head |
| Bitboards.RebuildByToggling | src/libchess/bitboard.hpp:11-32 | XOR-ing every visited square into an empty board rebuilds the board, and the squares are visited in ascending order |
| Bitboards.StepCoords | src/libchess/bitboard.hpp:193-218 | the k-th step from a towards an aligned b moves k files and k ranks in the directions of b (0 along an unchanged coordinate) |
| Bitboards.StepEnds | src/libchess/bitboard.hpp:201-213 | the walk from a reaches b exactly after the distance in steps, and starts at a |
| Bitboards.StepsMembers | src/libchess/bitboard.hpp:201-213 | after k steps the collected mask is exactly the squares reached by steps 1..k |
| Bitboards.StepIsBetween | src/libchess/bitboard.hpp:193-218 | every step before the last lands strictly between a and b |
| Bitboards.BetweenIsStep | src/libchess/bitboard.hpp:193-218 | every square strictly between a and b is reached by the walk, at its distance from a |
| Bitboards.StepsExcludeEnd | src/libchess/bitboard.hpp:201-213 | before the last step the collected mask does not contain b |
| Bitboards.BetweenIsSegment | src/libchess/bitboard.hpp:193-218 | `squares_between(a, b)` is empty unless a and b share a rank, file or diagonal, and otherwise is exactly the squares strictly between them |
| Bitboards.StrictlyBetweenSymmetric | src/libchess/bitboard.hpp:193-218 | a square strictly between a and b is strictly between b and a |
| Bitboards.BetweenSymmetric | src/libchess/bitboard.hpp:271-281 | `squares_between` does not depend on the order of its arguments |
| Bitboards.SquaresBetween | src/libchess/bitboard.hpp:193-218 | the stepping loop returns exactly the squares strictly between two aligned squares, and nothing otherwise |
| Bitboards.BetweenSameFile | src/libchess/bitboard.hpp:271-272 | a1 to a4, either way round, gives {a2, a3} (0x10100) |
| Bitboards.BetweenSameRank | src/libchess/bitboard.hpp:274-275 | a1 to d1, either way round, gives {b1, c1} (0x6) |
| Bitboards.BetweenDiagonal | src/libchess/bitboard.hpp:277-278 | a1 to d4, either way round, gives {b2, c3} (0x40200) |
| Bitboards.BetweenAntiDiagonal | src/libchess/bitboard.hpp:280-281 | a4 to d1, either way round, gives {b3, c2} (0x20400) |
| Bitboards.BetweenEmptyCases | src/libchess/bitboard.hpp:283-290 | identical, adjacent and unaligned pairs give the empty board |
| Bits.And | src/libchess/bitboard.hpp:87-90 | the squares of `a & b` are the intersection of the squares of a and b |
| Bits.Or | src/libchess/bitboard.hpp:92-95 | the squares of `a \| b` are the union |
| Bits.Xor | src/libchess/bitboard.hpp:97-100 | the squares of `a ^ b` are the symmetric difference |
| Bits.Not | src/libchess/bitboard.hpp:102-104 | the squares of `~a` are the complement |
| Bits.SingleMembers | src/libchess/bitboard.hpp:42-43 | `Bitboard(sq)`, the mask `1 << sq`, holds exactly sq |
| Bits.GetSet | src/libchess/bitboard.hpp:45-51 | `get(sq)` is membership, and `set(sq)` adds exactly sq |
| Bits.ShiftNorth | src/libchess/bitboard.hpp:142-144 | `mask << 8` is the set-level north shift: squares move up a rank and rank 8 falls off |
| Bits.ShiftSouth | src/libchess/bitboard.hpp:146-148 | `mask >> 8` is the set-level south shift |
| Bits.ShiftEast | src/libchess/bitboard.hpp:150-152 | `(mask << 1) & ~FileA` is the set-level east shift, with no wrap onto file a |
| Bits.ShiftWest | src/libchess/bitboard.hpp:154-156 | `(mask >> 1) & ~FileH` is the set-level west shift, with no wrap onto file h |
| Bits.EastOnFileA | src/libchess/bitboard.hpp:150-152 | no file-a square survives `east()` |
| Bits.WestOnFileH | src/libchess/bitboard.hpp:154-156 | no file-h square survives `west()` |
| Bits.FileAConstant | src/libchess/bitboard.hpp:222 | 0x0101010101010101 is exactly file a |
| Bits.FileHConstant | src/libchess/bitboard.hpp:229 | 0x8080808080808080 is exactly file h |
| Bits.LightSquare | src/libchess/bitboard.hpp:253 | a square is in 0x55aa55aa55aa55aa iff rank + file is odd, the `light()` of square.hpp |
| Bits.LightConstant | src/libchess/bitboard.hpp:253 | the light-square constant holds exactly the light squares |
| Bits.DarkConstant | src/libchess/bitboard.hpp:254 | the dark-square constant holds exactly the dark squares |
| Bits.EmptyAllConstant | src/libchess/bitboard.hpp:255-256 | Empty holds no square and AllSquares holds all 64 |
| Bits.Permute | src/movegen.cpp:214-216 | `permute(set, subset)` is always a subset of `set` |
| Bits.PermuteWraps | src/movegen.cpp:332-340 | the enumeration leaves 0 for a non-empty mask and returns to 0 when started from the full mask |
| Movegen.RayStep | src/movegen.cpp:225-232 | one step of a ray loop: off the board the ray is empty; on it, the square is included, and the ray stops there if the square is a blocker |
| Movegen.RayBound | src/movegen.cpp:225 | a ray from an on-board square has fewer than 8 steps |
| Movegen.RayReaches | src/movegen.cpp:225-232 | a ray square whose earlier squares are all empty is included |
| Movegen.RayIndex | src/movegen.cpp:225-232 | every included square is some step j of the ray, and all squares before step j are empty |
| Movegen.ClearIsBetween | src/movegen.cpp:225-232 | the squares before step j are free of blockers iff `squares_between` origin and step j holds no blocker |
| Movegen.RaySees | src/movegen.cpp:218-265 | a square is in the ray iff it lies in that direction from the origin with no blocker strictly between: up to and including the first blocker, never the origin |
| Movegen.BishopAttacksSees | src/movegen.cpp:218-265 | `calculate_bishop_moves` holds exactly the squares on a shared diagonal with no blocker strictly between |
| Movegen.RookAttacksSees | src/movegen.cpp:267-314 | `calculate_rook_moves` holds exactly the squares on a shared rank or file with no blocker strictly between |
| Movegen.WalkRay | src/movegen.cpp:225-232 | one ray loop collects exactly the ray up to and including the first blocker |
| Movegen.CalculateBishopMoves | src/movegen.cpp:218-265 | the method returns the bishop ray-cast for the square and blockers |
| Movegen.CalculateRookMoves | src/movegen.cpp:267-314 | the method returns the rook ray-cast for the square and blockers |
| Movegen.MaskIsRayInterior | src/movegen.cpp:137-159 | a mask ray holds exactly the empty-board ray squares whose next square in that direction is still on the board |
| Movegen.RayAgree | src/movegen.cpp:333-339 | two blocker sets that agree on a ray's mask give the same ray: the edge square never matters as a blocker |
| Movegen.BishopLookup | src/movegen.cpp:363-367 | casting with only the relevant occupancy `occ & bishop_mask` gives the same attacks as casting with all of `occ` |
| Movegen.RookLookup | src/movegen.cpp:369-373 | casting with `occ & rook_mask` gives the same attacks as casting with `occ` |
| Movegen.BishopMaskNonEmpty | src/movegen.cpp:161 | every bishop mask is non-empty, as the source asserts |
| Movegen.RookMaskNonEmpty | src/movegen.cpp:197 | every rook mask is non-empty, as the source asserts |
| Movegen.BishopMaskMembers | src/movegen.cpp:130-164 | a square is in the bishop mask iff the empty-board bishop reaches it and the next square beyond it is on the board; the origin is excluded |
| Movegen.RookMaskMembers | src/movegen.cpp:166-200 | a square is in the rook mask iff the empty-board rook reaches it and the next square beyond it is on the board; the origin is excluded |
| Movegen.WalkMask | src/movegen.cpp:138-141 | one mask loop collects exactly the ray interior in that direction |
| Movegen.CalculateBishopMasks | src/movegen.cpp:130-164 | the table has 64 entries, each the bishop mask of its square and non-empty |
| Movegen.GenerateRookMasks | src/movegen.cpp:166-200 | the table has 64 entries, each the rook mask of its square and non-empty |
| Movegen.JumpMembers | src/movegen.cpp:116-123 | the shifted singleton holds exactly the on-board square at that file and rank offset |
| Movegen.NorthJump | src/libchess/bitboard.hpp:142-144 | shifting a jump north adds one rank to its offset |
| Movegen.SouthJump | src/libchess/bitboard.hpp:146-148 | shifting a jump south takes one rank from its offset |
| Movegen.EastJump | src/libchess/bitboard.hpp:150-152 | shifting a jump east adds one file to its offset, with no wrap |
| Movegen.WestJump | src/libchess/bitboard.hpp:154-156 | shifting a jump west takes one file from its offset, with no wrap |
| Movegen.KnightJumps | src/movegen.cpp:116-123 | the eight shift compositions are the eight on-board L-jumps, with file wrap masked off |
| Movegen.KnightMaskMembers | src/movegen.cpp:110-128 | a square is in the knight mask iff it is a knight's jump away |
| Movegen.KnightMaskSymmetric | src/attackers.cpp:20 | y is in the knight mask of x iff x is in the knight mask of y, which `attackers` relies on |
| Movegen.KnightMaskNonEmpty | src/movegen.cpp:125 | every knight mask is non-empty, as the source asserts |
| Movegen.KnightMaskOf | src/movegen.cpp:113-123 | the loop body for one square computes that square's knight mask |
| Movegen.CalculateKnightMasks | src/movegen.cpp:110-128 | the table has 64 entries, each the knight mask of its square and non-empty |
| Movegen.KingJumps | src/movegen.cpp:202-212 | the king mask is the union of the up to eight one-step neighbours |
| Movegen.KingAsWrittenJumps | src/movegen.cpp:207 | with `adjacent()` as written (north or south only), the mask holds only the squares above and below |
| Movegen.KingMaskMembers | src/movegen.cpp:202-212 | a square is in the king mask iff it is a king's step away |
| Movegen.KingMaskSymmetric | src/attackers.cpp:26 | y is in the king mask of x iff x is in the king mask of y |
| Movegen.KingMaskNonEmpty | src/movegen.cpp:209 | every king mask is non-empty |
| Movegen.KingMaskAsWrittenA1 | tests/movegen.cpp:73-77 | as written, the a1 king mask is {a2}; the tests expect {b1, a2, b2} (0x302), which is what the eight-neighbour mask gives |
| Movegen.CalculateKingMasks | src/movegen.cpp:202-212 | the table has 64 entries, each the eight-neighbour king mask of its square and non-empty |
| Movegen.BishopMoves | src/movegen.cpp:363-367 | the table lookup for `occ` equals the bishop ray-cast of the full `occ` |
| Movegen.RookMoves | src/movegen.cpp:369-373 | the table lookup for `occ` equals the rook ray-cast of the full `occ` |
| Movegen.KnightMovesMembers | src/movegen.cpp:359-361 | `knight_moves` holds exactly the knight's-jump squares not in `occ` |
| Movegen.KingMovesMembers | src/movegen.cpp:379-381 | `king_moves` holds exactly the king's-step squares not in `occ` |
| Movegen.SliderMovesMembers | src/movegen.cpp:363-377 | bishop, rook and queen moves are the diagonal, orthogonal and all unobstructed lines from the square; the queen is the union of the other two |
| Movegen.KnightMovesA1 | tests/movegen.cpp:12 | the knight on a1 reaches {b3, c2} (0x20400) |
| Movegen.BishopMovesA1 | tests/movegen.cpp:27 | the empty-board bishop on a1 sees the long diagonal (0x8040201008040200) |
| Movegen.BishopMovesD4 | tests/movegen.cpp:29 | the bishop on d4 with blockers 0x40000400040000 sees 0x40201400142040 |
| Movegen.RookMovesA1 | tests/movegen.cpp:42 | the empty-board rook on a1 sees file a and rank 1 (0x1010101010101fe) |
| Movegen.RookMovesD4 | tests/movegen.cpp:44 | the rook on d4 with blockers 0x840000800 sees 0x877080800 |
| Movegen.BishopAttacksA1 | tests/movegen.cpp:27 | the square-set bishop ray walk from a1 over an empty board gives the seven long-diagonal squares b2…h8 |
| Movegen.BishopAttacksD4 | tests/movegen.cpp:29 | the ray walk from d4 stops on the blockers c3, c5 and g7 and includes them |
| Movegen.RookAttacksA1 | tests/movegen.cpp:42 | the ray walk from a1 over an empty board gives the rest of file a and rank 1 |
| Movegen.RookAttacksD4 | tests/movegen.cpp:44 | the ray walk from d4 stops on the blockers d2, g4 and d5 and includes them |
| Pieces.Side.Other | src/libchess/side.hpp:12-14 | `!s` is the other side |
| Pieces.OtherInvolution | src/libchess/side.hpp:12-14 | `!!s == s`, and the other side has the other array index |
| Pieces.Piece.Index | src/libchess/piece.hpp:6-15 | each of the six real pieces has its enumerator value 0..5 |
| Pieces.PieceAt | src/libchess/piece.hpp:6-15 | `Piece(i)` for i in 0..5 is a real piece whose index is i |
| Pieces.IndexInjective | src/libchess/piece.hpp:6-15 | two real pieces with the same index are the same piece |
| Pieces.RightIndex | src/libchess/position.hpp:177-193 | `can_castle(s, type)` reads one of the four flags |
| Pieces.RightIndexInjective | src/libchess/position.hpp:177-193 | the flags are White king-side 0, White queen-side 1, Black king-side 2, Black queen-side 3, one per (side, wing) |
| Boards.Board.PiecesOf | src/libchess/position.hpp:66-69 | `pieces(s, p)` lies within side s's occupancy and within piece p's mask |
| Boards.Board.Occupied | src/libchess/position.hpp:71-73 | a square is occupied iff either side occupies it |
| Boards.Board.EmptySquares | src/libchess/position.hpp:75-77 | a square is empty iff it is not occupied |
| Boards.OccupiedEmptyPartition | src/libchess/position.hpp:71-77 | occupied and empty squares are disjoint and together cover the board |
| Boards.Board.KingPosition | src/libchess/position.hpp:97-99 | `king_position(s)` is the lowest square of side s's king mask |
| Boards.Board.EpSquare | src/get_fen.cpp:116-129 | the en-passant square lies on file `ep_`, on rank 6 when White is to move and rank 3 when Black is |
| Boards.FirstPieceFromFacts | src/libchess/position.hpp:233-240 | scanning the piece masks from index i finds None iff no mask from i on holds the square, and otherwise the first mask that does |
| Boards.PieceOnFacts | src/libchess/position.hpp:233-240 | `piece_on(sq)` is None iff no piece mask holds sq, and otherwise the lowest-index piece whose mask holds it |
| Boards.PieceOnExact | src/libchess/position.hpp:233-240 | when the piece masks are disjoint, `piece_on(sq)` is p iff p's mask holds sq |
| Boards.PieceOnScan | src/libchess/position.hpp:233-240 | the scan loop returns `piece_on(sq)` |
| Boards.SetBoard | src/libchess/position.hpp:228-231 | `set` changes only the two masks: side to move, en passant, castling, clocks and hash are untouched |
| Zobrist.Xor | src/predict_hash.cpp:19 | XOR-ing a key into a hash toggles exactly that key |
| Zobrist.XorAllHas | src/predict_hash.cpp:19-87 | after XOR-ing a list of keys, a key is in the hash iff it was there before differently from whether it occurs an odd number of times in the list |
| Zobrist.DistinctOccurrences | src/predict_hash.cpp:24-71 | a key occurs at most once in a list without repeats |
| Zobrist.XorAllTwice | src/predict_hash.cpp:19-87 | XOR-ing the same keys twice restores the hash |
| Hashing.HashOfHas | src/valid.cpp:11-13 | the full recomputation holds the key of each placed piece on its square and side, the side key iff Black is to move, the en-passant key of the stored file iff one is set, and the castling key of each held right |
| Validity.ConsistentKings | src/valid.cpp:25-31 | with exactly one king per side, each side's king mask is the single square `king_position` returns |
| Validity.InUnion | src/valid.cpp:49-51 | a square in the union of the piece masks has a piece on it, and that piece's mask holds it |
| Validity.Occupant | src/valid.cpp:33-51 | on a well-formed placement, every square a side occupies holds one of that side's pieces and is not occupied by the other side |
| Validity.EnemyNotKing | src/valid.cpp:25-31 | any square of a side other than its king square holds a piece that is not a king |
| Validity.HitNotKing | src/valid.cpp:53-56 | on a valid board nothing the mover attacks is the enemy king's square |
| Making.RightsAfter | src/makemove.cpp:123-131 | a castling flag survives the move iff it was held and the move neither starts on its king or rook square nor lands on its rook square |
| Making.FlipColours | src/makemove.cpp:21-112 | each colour mask is XOR-ed with exactly the squares the move flips for that side |
| Making.FlipPieces | src/makemove.cpp:21-112 | each piece mask is XOR-ed with exactly the squares the move flips for that piece |
| Making.EntryOf | src/makemove.cpp:117-121 | the pushed history record holds the move itself |
| Making.UndoMakeRoundTrip | src/undomove.cpp:5-99 | undoing a move with the record making it pushed restores the position exactly: masks, side, en passant, castling, both clocks and hash |
| Making.AsWrittenUndoLosesFullmove | src/undomove.cpp:23 | with `makemove` as written (no clock update), make then undo restores the position iff White moved; after a Black move the full-move number ends one lower |
| Effects.KindAfter | src/makemove.cpp:21-112 | after the move, each piece mask is the old one XOR the squares flipped for that piece |
| Effects.OccupancyAfter | src/makemove.cpp:21-112 | after the move, each colour mask is the old one XOR the squares flipped for that side |
| Effects.PieceOnAfter | src/makemove.cpp:21-112 | on a well-formed board, the piece and side on every square after the move are those of the reference description (`PieceAfter`, `SideAfter`) |
| Effects.MakeWellLaid | src/makemove.cpp:136 | making a playable move keeps the colour masks disjoint, the piece masks disjoint and the colours covering exactly the pieces |
| AfterMove.MakeMovesPieces | src/makemove.cpp:21-112 | the origin is emptied and the moved (or promoted) piece of the mover stands on the target; an en-passant victim is removed; castling empties the rook's corner and puts the mover's rook on its target square |
| AfterMove.AfterMoved | src/makemove.cpp:21-112 | the same facts stated on the reference description of the position after the move |
| AfterMove.MakeKeepsOthers | src/makemove.cpp:21-112 | every square the move does not involve keeps its piece and side |
| AfterMove.AfterUnchanged | src/makemove.cpp:21-112 | the reference description leaves every square outside the move's squares unchanged |
| AfterMove.MakeSetsFields | src/makemove.cpp:29-134 | the side flips; en passant is set exactly by a double push, to the target's file; castling flags are only cleared and only by touching moves; the half-move clock resets on pawn moves and captures and counts up otherwise; the full-move number goes up exactly after Black's move |
| AfterMove.KingSquare | src/makemove.cpp:21-112 | a square holds a king of side s after the move iff it is in the predicted king squares of s |
| AfterMove.MakeMovesKings | src/makemove.cpp:21-112 | each side's king mask after the move is the predicted one: the mover's king follows a king move, otherwise both are unchanged |
| AfterMove.PawnSquare | src/makemove.cpp:21-112 | a pawn after the move either is the moved non-promoting pawn on its target or stood there before |
| AfterMove.MakeKeepsPawnsOffBackRanks | src/valid.cpp:37-39 | a playable move never leaves a pawn on rank 1 or rank 8 |
| AfterMove.MakeKeepsPlacement | src/makemove.cpp:136 | a playable move keeps the placement part of `valid()`: one king each, disjoint masks, colours covering the pieces, no pawn on a back rank |
| AfterMove.MakeKeepsHash | tests/consistency.cpp:49-50 | after a playable move the stored hash equals a full recomputation, when it did before |
| AfterMove.AsWrittenHashStale | tests/consistency.cpp:49-50 | with `makemove` as written (hash untouched), the stored hash after the move differs from the recomputation |
| HashMatch.LostRightsOccurrences | src/predict_hash.cpp:73-87 | the prediction toggles castling key i exactly once iff right i is held and the move touches its squares |
| HashMatch.MoveKeysDistinct | src/predict_hash.cpp:24-71 | for a playable move on a well-formed board, the per-kind keys XOR-ed in are pairwise different |
| HashMatch.PredictOccurrences | src/predict_hash.cpp:19-87 | the side key occurs once, the old en-passant key once iff set, each move key once and each lost castling key once |
| HashMatch.BeforeMove | src/makemove.cpp:15-112 | before a playable move, its piece of the mover stands on its origin, the captured enemy piece (if any) on its target, an en-passant victim behind the target, and the castling rook on its corner with its target empty |
| HashMatch.PieceKeyToggles | src/predict_hash.cpp:24-71 | a piece key is XOR-ed iff the square's occupant as that piece and side differs before and after the move |
| HashMatch.MovePieceKeys | src/predict_hash.cpp:24-71 | the same per-square statement for every playable move on a well-formed board |
| HashMatch.KeyMatch | src/predict_hash.cpp:5-91 | key by key, the prediction holds a key iff the recomputed hash of the position after the move does |
| HashMatch.HashMatches | tests/hash.cpp:66-81 | `predict_hash(m)` equals the full hash of the position after `makemove(m)`, for every playable move on a well-formed board whose hash is current |
| HashMatch.PredictAsWrittenMisses | src/predict_hash.cpp:37 | as written, a double push XORs in the en-passant key of the target square, while the position after the move holds the key of its file, so the prediction misses |
| Positions.Position.constructor | src/libchess/position.hpp:33-41 | a new position has empty masks, White to move, en passant 0 (`ep_{}`), both clocks zero and no history |
| Positions.Position.Clear | src/libchess/position.hpp:204-223 | `clear()` leaves the empty board: no pieces, White to move, no en passant, no castling rights, zero clocks and hash, empty history |
| Positions.Position.Set | src/libchess/position.hpp:228-231 | `set(sq, s, p)` adds sq to side s's mask and to piece p's mask and changes nothing else |
| Positions.Position.MakeNull | src/libchess/position.hpp:199-202 | `makenull()` flips the side to move, leaves the placement unchanged and pushes exactly one value-initialised history record |
| Positions.Position.MakeMove | src/makemove.cpp:5-137 | the position becomes the one after the move, and the history grows by exactly the record of the old en passant, castling flags, half-move clock and hash |
| Positions.Position.MovePieces | src/makemove.cpp:21-30 | the piece is lifted from its origin and put on its target in its colour and piece masks, and en passant is set to the target's file for a double push and cleared otherwise |
| Positions.Position.PlaceByKind | src/makemove.cpp:32-115 | the per-kind XORs: capture, en-passant victim, castling rook, promotion |
| Positions.Position.FinishMove | src/makemove.cpp:117-134 | the record is pushed, touched castling flags are cleared, the clocks advance, the hash becomes the prediction and the side flips |
| Positions.Position.ClearTouchedRights | src/makemove.cpp:123-131 | each castling flag is cleared iff the move touches its king or rook home square |
| Positions.Position.UndoMove | src/undomove.cpp:5-99 | the position becomes the undo of the top record, and the history loses exactly that record |
| Positions.Position.RestoreFields | src/undomove.cpp:6-33 | the side flips back; en passant, the half-move clock, the castling flags and the hash are copied from the record; the full-move number drops by one iff the undone move was Black's |
| Positions.Position.UnmovePieces | src/undomove.cpp:35-93 | every XOR of the move is applied again, which gives back the masks from before it |
| Positions.Position.Remove | src/makemove.cpp:41-43 | one piece of one side is toggled on one square |
| Positions.Position.MoveRook | src/makemove.cpp:73-78 | the castling rook is toggled off its corner and onto its target in both masks |
| Positions.Position.Promote | src/makemove.cpp:97-99 | the pawn on the target becomes the promoted piece |
| Positions.KindFlipsOf | src/makemove.cpp:32-115 | per move kind, the extra squares flipped: none for quiet and double moves, the target for captures, the victim for en passant, the rook's two squares for castling, the target for the pawn and promoted piece in promotions |
| Positions.Position.Perft | src/perft.cpp:5-22 | `perft(depth)` returns the recursive leaf count over the generated legal moves, and leaves the position and its history as they were |
| Positions.Position.PerftEach | src/perft.cpp:15-19 | the loop sums the child counts over the listed moves, each bracketed by make and undo, and restores the position |
| Positions.Position.PerftChild | src/perft.cpp:16-18 | make, recursive count, undo: returns the count of the child position and restores the position |
| Positions.SumPerftLeaves | src/perft.cpp:8-10 | summing depth-0 children counts the moves, so the `count_moves()` shortcut at depth 1 agrees with the general recursion |
| Positions.PerftShortcut | src/perft.cpp:8-10 | perft at depth 1 equals the sum over the moves of perft at depth 0 |
| Positions.PerftInner | src/perft.cpp:12-21 | for depth 2 and more, perft is the sum over the generated moves of perft at depth - 1 of the position after each |
| Positions.CountGenerated | src/count_moves.cpp:5-7 | `count_moves()` is the length of the generated move list |
| Positions.Position.UnplaceByKind | src/undomove.cpp:43-93 | the kind's own XORs are applied again: the captured piece or en-passant victim comes back for the opponent, the rook returns to its corner, the promoted piece becomes a pawn again |
| Positions.Position.FlipColour | src/makemove.cpp:22-26 | one side's mask is toggled on one square and the other side's mask is kept |
| Positions.Position.FlipPiece | src/makemove.cpp:23-27 | one piece's mask is toggled on one square and the other masks are kept |
| Positions.KindPieces | src/makemove.cpp:32-115 | each piece mask is toggled on exactly the squares the move kind flips for that piece |
| Positions.QuietKind | src/makemove.cpp:32-52 | a quiet move or double push changes no mask beyond the mover's |
| Positions.CaptureKind | src/makemove.cpp:37-44 | a capture removes the captured piece from the opponent's mask and its piece mask on the target |
| Positions.EnPassantKind | src/makemove.cpp:53-67 | en passant removes the opponent's pawn behind the target |
| Positions.CastleKind | src/makemove.cpp:68-91 | castling moves the side's rook from its corner to the square beside the king |
| Positions.PromoKind | src/makemove.cpp:92-100 | a promotion replaces the pawn on the target by the promoted piece and keeps the side masks |
| Positions.PromoCaptureKind | src/makemove.cpp:101-112 | a capturing promotion replaces the pawn by the promoted piece and removes the captured piece |
| Positions.Generated | src/legal_moves.cpp:5-11 | the list `legal_moves()` returns is exactly the list the move generator the perft specification is built on produces |
| Positions.SumPerftStep | src/perft.cpp:15-19 | summing over a non-empty move list is the count below the first move plus the sum over the rest |
| Fen.LetterRoundTrip | src/set_fen.cpp:20-69 | reading back the letter `get_fen` writes for a piece gives that piece and side, and the letter is not a space |
| Fen.LetterOnly | src/get_fen.cpp:14-73 | every letter `set_fen` places a piece for is the letter `get_fen` writes for that piece and side |
| Fen.DigitChar | src/get_fen.cpp:15-17 | a digit below 10 is written as the character whose value it is |
| Fen.NatText | src/get_fen.cpp:131-135 | `std::to_string` of a natural number is a non-empty run of digits, one digit below 10 |
| Fen.DigitsRoundTrip | src/set_fen.cpp:116-120 | reading back the decimal text of a natural number gives the number |
| Fen.SkipSpaces | src/set_fen.cpp:18 | `>>` first skips white space: what remains is no longer than the stream and does not start with a space |
| Fen.WordLength | src/set_fen.cpp:18 | a word read never runs past the end of the stream |
| Fen.DigitsLength | src/set_fen.cpp:117 | the number read consumes only digits and never runs past the end of the stream |
| Fen.IntTextSigned | src/get_fen.cpp:131-135 | the text of an integer starts with '-' exactly when it is negative, and after the sign holds the digits of its magnitude |
| Fen.ReadsWord | src/set_fen.cpp:18 | `ss >> word` on one space (or none) then a space-free word followed by a space or the end yields that word and leaves the stream at the rest |
| Fen.WordLengthOf | src/set_fen.cpp:18 | a word stops exactly at the first space |
| Fen.DigitsLengthOf | src/set_fen.cpp:117 | a number stops exactly at the first space |
| Fen.ReadsInt | src/set_fen.cpp:116-120 | `ss >> n` on a space and the text `get_fen` writes for an integer yields that integer and leaves the stream at the rest |
| Fen.ReadIntDigits | src/set_fen.cpp:116-120 | a signed digit run is read as its value, negated after a '-' |
| Fen.RunAppend | src/set_fen.cpp:19-86 | the placement loop over x then y is the loop over x followed by the loop over y |
| Fen.CastleRunAppend | src/set_fen.cpp:96-108 | the castling loop over x then y is the loop over x followed by the loop over y |
| Fen.EpFile | src/set_fen.cpp:110-114 | the en-passant word is stored as a file 0..7 |
| Fen.SqAt | src/get_fen.cpp:10-87 | the n-th square visited is on rank 8 - n / 8 (index 7 - n / 8) and file n % 8: ranks from 8 down to 1, files a to h |
| Fen.Order | src/get_fen.cpp:10-87 | every square is visited, at step `Order(sq)` below 64 |
| Fen.PlacedMasks | src/set_fen.cpp:19-86 | placing the first n visited squares' pieces puts a square into side and piece masks iff it is among them and carries that side and piece |
| Fen.ColourMask | src/valid.cpp:33-51 | on a well-formed board a side's mask holds exactly the occupied squares of that colour |
| Fen.PlacedAll | src/set_fen.cpp:19-86 | placing the pieces of all 64 squares of a well-formed board rebuilds its masks exactly |
| Fen.FlushDigit | src/get_fen.cpp:15-18 | a run of empty squares is written as one digit, and nothing when there is none |
| Fen.RunFlush | src/set_fen.cpp:70-79 | reading that digit advances the cursor by the run's length, places nothing and contains no space |
| Fen.RestTextPiece | src/get_fen.cpp:14-73 | from any point of the walk, a piece flushes the pending run and writes its letter, and the rest restarts with no pending run |
| Fen.RestTextEmpty | src/get_fen.cpp:74-76 | from any point of the walk, an empty square only lengthens the pending run |
| Fen.ParseRankEnd | src/set_fen.cpp:80-82 | the text of a rank's end is read correctly once the rank below is |
| Fen.ParseSlash | src/set_fen.cpp:80-82 | after a complete rank, '/' and the text of the ranks below place exactly those ranks and end with the cursor past h1 |
| Fen.ParseEmpty | src/set_fen.cpp:70-79 | an empty square, counted into the pending digit, keeps the rest of the text readable from the earlier cursor |
| Fen.ParsePiece | src/set_fen.cpp:20-69 | a piece letter placed at the cursor keeps the rest of the text readable from the square before |
| Fen.RankTextEmpty | src/get_fen.cpp:74-76 | an empty square only lengthens the pending run |
| Fen.RankTextPiece | src/get_fen.cpp:14-73 | a piece flushes the pending run, then writes its letter |
| Fen.RestTextEnd | src/get_fen.cpp:78-87 | at the end of a rank the pending run is flushed and '/' follows on every rank but the first |
| Fen.RestParse | src/set_fen.cpp:19-86 | reading the text written from any point of the walk on, from the matching cursor, places exactly the pieces of the remaining squares and ends past the board |
| Fen.SlashStep | src/set_fen.cpp:80-82 | '/' moves the cursor back 16 |
| Fen.RunCons | src/set_fen.cpp:20-86 | one character then the rest: the loop steps on the character, then continues |
| Fen.RestNoSpace | src/get_fen.cpp:9-88 | the placement text contains no space, so `>>` reads it as one word |
| Fen.CastlingRoundTrip | src/get_fen.cpp:97-114 | the castling text is non-empty and space-free, and reading it into cleared flags gives back the flags |
| Fen.CastlingLetters | src/set_fen.cpp:96-108 | K, Q, k, q, written in that order for the held rights, set exactly those flags |
| Fen.EpRoundTrip | src/get_fen.cpp:116-129 | the en-passant text is "-" iff no en passant is set; otherwise it names a square whose file is read back as the stored file |
| Fen.AsWrittenEpStoresSquare | src/set_fen.cpp:113 | as written, `ep_ = Square(word)` stores the square's index (40 + file or 16 + file), which `valid()` rejects as above 7, while the file is the value `get_fen` and `makemove` use |
| Fen.ReadFenFields | src/set_fen.cpp:18-120 | reading the six fields of the text `get_fen` writes gives back each field written |
| Fen.ReadJoined | src/set_fen.cpp:18-120 | six fields joined by single spaces, the first four non-empty and space-free, are read back field by field |
| Fen.HashIgnoresHash | src/set_fen.cpp:122-127 | the recomputed hash does not depend on the stored hash |
| Fen.FenRoundTrip | tests/fen.cpp:28-32 | for every well-formed board with a current hash and a well-formed en-passant field, `set_fen(get_fen())` rebuilds the board exactly |
| Fen.FenBoardOf | src/set_fen.cpp:13-127 | the board `set_fen` builds field by field is the specification's reading of the text, with its hash recomputed |
| Fen.FenBoardHashed | src/set_fen.cpp:122-127 | the board read from a text carries the full hash of itself |
| Fen.ParseFenHashed | src/set_fen.cpp:8-127 | also after the "startpos" rewrite, the hash of the board read is its full recomputation |
| Fen.WalkPlacement | src/get_fen.cpp:9-88 | the square-by-square walk with its running count of empty squares writes exactly the rank-by-rank placement text |
| Fen.WalkFromWritten | src/get_fen.cpp:9-88 | from any point at which the text so far, followed by the rest of the placement text with the pending run, makes up a text, the rest of the walk ends with exactly that text |
| Fen.StepWritten | src/get_fen.cpp:14-87 | one step of the walk keeps the text so far, followed by the rest of the placement text with the pending run, the same text |
| Fen.CloseWritten | src/get_fen.cpp:78-87 | closing a rank (flush, then '/' but after the last rank) keeps the text so far, followed by the rest of the placement text, the same text |
| Fen.EmitPiece | src/get_fen.cpp:14-73 | writing the flushed run and a piece's letter keeps the text so far, followed by the rest of the placement text, the same text |
| Fen.EmitRankEnd | src/get_fen.cpp:78-87 | writing the flushed run and '/' at a rank's end keeps the text so far, followed by the rest of the placement text, the same text; after the last rank the text so far is that whole text |
| Fen.SqAtNext | src/get_fen.cpp:78-87 | the cursor steps by one along a rank and by -15 net (`i -= 16` then `++i`) from file h to file a of the rank below, and leaves the loop at -8 after h1 |
| Positions.Position.GetFen | src/get_fen.cpp:5-138 | `get_fen()` returns the FEN text of the position: placement, " w" or " b", castling, en passant, half-move clock and full-move number |
| Positions.Position.WritePlacement | src/get_fen.cpp:9-88 | the placement loop writes exactly the rank-by-rank placement text |
| Positions.Position.CastlingPart | src/get_fen.cpp:97-113 | the castling part is K, Q, k, q for the held rights in that order, or "-" |
| Positions.Position.SetFen | src/set_fen.cpp:7-130 | `set_fen(fen)` leaves the position the specification reads from the text ("startpos" first rewritten to the initial position's text), with an empty history |
| Positions.Position.ReadFen | src/set_fen.cpp:13-127 | clear, then the six fields in order, then the hash recomputed: the position is the board read from the text, with an empty history |
| Positions.Position.PlacePieces | src/set_fen.cpp:19-86 | the character loop from cursor a8 places exactly what the specification's run places and changes no other field |
| Positions.Position.SetCastling | src/set_fen.cpp:96-108 | the castling loop sets the flags named by K, Q, k, q and changes nothing else |
| TranspositionTable.CapacityAsWrittenEmpty | examples/tt.hpp:14 | as written, `mb * 1024 * 1024` is computed in 32 bits, so 0 MB and 4096 MB both give a table of 0 entries, on which `index` divides by zero |
| TranspositionTable.CapacityPositive | examples/tt.hpp:10-16 | with the size computed without wrap-around and at least 1 MB, the table has at least one entry |
| TranspositionTable.CountStored | examples/tt.hpp:29 | the number of slots with a non-zero stored hash is at most the table size |
| TranspositionTable.CountStoredUpdate | examples/tt.hpp:27-31 | overwriting one slot changes the count of stored slots by the change in that slot alone |
| TranspositionTable.CountStoredZero | examples/tt.hpp:37-40 | a table of zeroed entries stores nothing |
| TranspositionTable.TT.constructor | examples/tt.hpp:10-16 | the table has `Capacity(mb, size)` entries, all zero, and `filled_` is 0 |
| TranspositionTable.TT.Index | examples/tt.hpp:52-54 | `index(hash)` is `hash % size()`, always a valid slot, and a hash below the size is its own slot |
| TranspositionTable.TT.Size | examples/tt.hpp:33-35 | `size()` is the number of entries, at least one |
| TranspositionTable.TT.Poll | examples/tt.hpp:22-25 | `poll(hash)` returns the entry in the hash's slot |
| TranspositionTable.TT.Add | examples/tt.hpp:27-31 | `add(hash, t)` overwrites exactly the hash's slot with t, so `poll(hash)` returns t until another hash of that slot is added; `filled_` grows by one iff the slot's old hash was 0 |
| TranspositionTable.TT.Clear | examples/tt.hpp:37-40 | `clear()` zeroes every entry and sets `filled_` to 0, which then counts the stored slots |
| Attacks.DiagonalsOfSingle | src/attackers.cpp:12-17 | from a single square, one step diagonally south or north lands on the squares 7 or 9 away, never wrapping round a board edge |
| Attacks.PawnHitsOffsets | src/attackers.cpp:10-18 | a white pawn hits the squares 7 and 9 above it and a black pawn those 7 and 9 below, never across the a/h edge |
| Attacks.PawnSourcesMembers | src/attackers.cpp:10-18 | the squares `attackers` looks at for pawns are exactly those from which a pawn of that side hits the square |
| Attacks.DiagonalsOfBoard | src/squares_attacked.cpp:9-18 | shifting a whole pawn mask one step diagonally sets exactly the squares one diagonal step from some pawn, with no wrap-around |
| Attacks.PawnEdges | src/squares_attacked.cpp:9-18 | a diagonal step of 7 or 9 stays on the board's adjacent file exactly when the file guard holds |
| Attacks.PawnAttacksMembers | src/squares_attacked.cpp:9-18 | the shifted pawn mask holds exactly the squares some pawn of the side hits |
| Attacks.SeesSymmetric | src/attackers.cpp:22-24 | a slider on one square sees another square iff a slider there sees it back, which is why `attackers` may cast rays from the target |
| Attacks.JumpersFromTarget | src/attackers.cpp:20-26 | the knight and king masks of the target are exactly the squares a knight or king would attack it from |
| Attacks.SlidersFromTarget | src/attackers.cpp:22-24 | the bishop and rook rays of the target, over the occupancy, are exactly the squares a bishop or rook would attack it from |
| Attacks.AttackerParts | src/attackers.cpp:10-26 | each of the six terms of `attackers` selects exactly that kind of piece of the side that hits the square |
| Attacks.AttackersMembers | src/attackers.cpp:6-29 | `attackers(sq, s)` is exactly the set of pieces of side s that attack sq on the current occupancy |
| Attacks.AttackersOwn | src/attackers.cpp:6-29 | every attacker is a piece of the attacking side |
| Attacks.SquareAttackedMeans | src/square_attacked.cpp:6-8 | `square_attacked(sq, s)` holds iff some piece of side s attacks sq |
| Attacks.Checkers | src/checkers.cpp:6-8 | `checkers()` holds only pieces of the side not to move |
| Attacks.CheckersInCheck | src/libchess/position.hpp:111-113 | `in_check()` iff `checkers()` is non-empty, and the checkers are exactly the enemy pieces attacking the king of the side to move |
| Attacks.CoverAdd | src/squares_attacked.cpp:21-38 | adding one origin to the loop adds exactly that origin's attack mask |
| Attacks.CoverLoop | src/squares_attacked.cpp:21-38 | the loop over a piece mask ORs together exactly the attack masks of its squares |
| Attacks.KnightCover | src/squares_attacked.cpp:21-23 | the knights' loop covers exactly the squares a knight of the set attacks |
| Attacks.BishopCover | src/squares_attacked.cpp:26-28 | the bishops' loop covers exactly the squares a bishop of the set sees diagonally |
| Attacks.RookCover | src/squares_attacked.cpp:31-33 | the rooks' loop covers exactly the squares a rook of the set sees along a rank or file |
| Attacks.QueenCover | src/squares_attacked.cpp:36-38 | the queens' loop covers exactly the squares a queen of the set sees |
| Attacks.SomePieceHits | src/squares_attacked.cpp:9-38 | a square is hit by some non-king piece iff it is hit by a pawn, a knight, a bishop, a rook or a queen of the side |
| Attacks.ThreatsMembers | src/squares_attacked.cpp:6-44 | the union computed is exactly the squares some piece of the side attacks over the given occupancy, or a king step from the given king square |
| Attacks.SquaresAttacked | src/squares_attacked.cpp:6-44 | `squares_attacked(s)` is the threat map of side s over the current occupancy and its king |
| Attacks.SingleKing | src/libchess/position.hpp:97-99 | a side with one king has its king mask equal to that king's square |
| Attacks.SquaresAttackedAgree | src/squares_attacked.cpp:6-44 | with one king, a square is in `squares_attacked(s)` iff `square_attacked(sq, s)` holds: the two attack computations agree |
| Attacks.HitsByKing | src/squares_attacked.cpp:40-41 | with a single king, being attacked means being hit by a non-king piece or being next to the king |
| Attacks.KingSafeMembers | src/king_allowed.cpp:10-55 | `king_allowed(s)` holds exactly the squares not occupied by s, not the enemy king's square nor next to it, and not attacked by any enemy piece once s's king is lifted off the board |
| Attacks.KingAllowed | src/king_allowed.cpp:10-55 | the loops of `king_allowed(s)` compute exactly that safe-square set |
| Attacks.KingAllowedToMove | src/king_allowed.cpp:6-8 | for the side to move, the allowed squares never hold its own pieces nor the enemy king |
| Pins.Pinners | src/pinned.cpp:28 | the candidate pinners are pieces of the pinning side |
| Pins.LinesMembers | src/pinned.cpp:22 | the bishop (or rook) rays from a square hold exactly the squares it sees diagonally (or along a rank or file) |
| Pins.ToggleOne | src/pinned.cpp:25 | `occupied() ^ bb` for an occupied square lifts exactly that piece off the board |
| Pins.NotBetweenEnd | src/pinned.cpp:27 | a square is never strictly between another square and itself |
| Pins.OnlyBlocker | src/pinned.cpp:26-27 | a square seen once n is lifted but not before is one for which n was the only blocker |
| Pins.SameCoords | src/libchess/square.hpp:57-63 | a square is fixed by its file and rank |
| Pins.SameRay | src/pinned.cpp:26-27 | two squares with the same piece strictly between them and the king lie on one ray, one behind the other |
| Pins.BetweenAxis | src/pinned.cpp:22-28 | a square between the king and a slider lies on the same line as the slider |
| Pins.BetweenPrefix | src/pinned.cpp:26-27 | what lies between the king and a blocker also lies between the king and a slider behind that blocker |
| Pins.PinnedSeen | src/pinned.cpp:22-23 | a pinned piece is among the pieces the king's rays reach |
| Pins.PinnerUnique | src/pinned.cpp:26-30 | a piece is pinned by at most one slider along its line |
| Pins.PinnersBehindMembers | src/pinned.cpp:24-28 | the pin test on n finds exactly the pinning sliders for which n is the one piece between them and the king |
| Pins.DiscoveredMembers | src/legal_captures.cpp:62-73 | the `new_rays ^ rays` test of the generators finds exactly the same pinning sliders |
| Pins.DiscoveredSingle | src/legal_captures.cpp:62-73 | that test finds a single slider whenever it finds one |
| Pins.PinTestsAgree | src/legal_captures.cpp:238 | the generators' inline pin test and the one in `pinned()` agree, as the source's `assert(pinned_pieces == pinned())` expects |
| Pins.FoundAdd | src/pinned.cpp:23-33 | one step of the loop adds the visited square iff a pinner stands behind it |
| Pins.PinnedBy | src/pinned.cpp:15-56 | the pinned set holds only pieces of the side whose king is looked at, as the source asserts at line 53 |
| Pins.PinnersBehindNonEmpty | src/pinned.cpp:30-32 | the test's mask is non-empty exactly when some slider pins n |
| Pins.PinnedAlongMembers | src/pinned.cpp:20-50 | one loop marks exactly the friendly pieces first seen from the king along its lines with a matching slider behind them |
| Pins.PinnedByMembers | src/pinned.cpp:15-56 | a piece is pinned exactly when it is the first piece seen from the king along a line and a slider of the pinning side moving along that line stands right behind it |
| Pins.PinTest | src/pinned.cpp:24-28 | the loop body returns the sliders the lifted piece uncovers |
| Pins.ScanMask | src/pinned.cpp:23-33 | the loop over a mask adds exactly the squares with a pinner behind them |
| Pins.ScanAlong | src/pinned.cpp:20-50 | one block of `pinned(s, sq)` adds exactly that line kind's pinned pieces |
| Pins.PinnedScan | src/pinned.cpp:15-56 | the two blocks compute exactly the pinned set |
| Pins.Pinned | src/pinned.cpp:7-9 | `pinned()` is the set of pieces of the side to move pinned to its king by the opponent's sliders |
| Pins.PinnedSide | src/pinned.cpp:11-13 | `pinned(s)` as written takes the sliders of the side not to move as pinners, whatever s is |
| Pins.PinnedAsWrittenOwnSliders | src/pinned.cpp:28 | for the side not to move, `pinned(s)` reports a piece pinned by its own rook behind it while no enemy slider pins anything |
| Pawns.EpTarget | src/pawn_moves_white.cpp:47-50 | the en-passant target is on the stored file, on the sixth rank for White and the third for Black |
| Pawns.InForward | src/pawn_moves_white.cpp:12 | `pawns.north()` (`south()` for Black) holds exactly the squares one step ahead of a pawn |
| Pawns.FitsPush | src/pawn_moves_white.cpp:13-15 | every single-push target has its origin one step behind it on the board (`sq.south()`) |
| Pawns.InDoubles | src/pawn_moves_white.cpp:18-19 | a double-push target is one two steps ahead of a pawn whose intermediate square is empty |
| Pawns.FitsDoubles | src/pawn_moves_white.cpp:20-23 | every double-push target has its origin two steps behind it (`sq.south().south()`) |
| Pawns.InRight | src/pawn_moves_white.cpp:26 | `pawns.north().east()` holds exactly the squares diagonally ahead to the higher file of some pawn, never across the h/a edge |
| Pawns.InLeft | src/pawn_moves_white.cpp:36 | `pawns.north().west()` holds exactly the squares diagonally ahead to the lower file of some pawn, never across the a/h edge |
| Pawns.FitsDiagonals | src/pawn_moves_white.cpp:27-43 | every capture target has its origin on the board diagonally behind it |
| Pawns.PawnSteps | src/pawn_moves_white.cpp:25-43 | a pawn attacks exactly the squares one push plus or minus one file away, without crossing an edge |
| Pawns.PushYields | src/pawn_moves_white.cpp:11-15 | one single-push emission is exactly a pawn stepping straight ahead onto an allowed square |
| Pawns.PushesHas | src/pawn_moves_white.cpp:11-15 | the single-push loop emits exactly the straight steps onto empty allowed squares, with kind, piece and promotion as given |
| Pawns.DoubleYields | src/pawn_moves_white.cpp:17-23 | one double-push emission is exactly a pawn moving two steps over an empty square |
| Pawns.DoublesHas | src/pawn_moves_white.cpp:17-23 | the double-push loop emits exactly the two-step moves from the start rank onto empty allowed squares of the fourth (fifth) rank |
| Pawns.RightYields | src/pawn_moves_white.cpp:25-33 | one emission of the right-capture loop is a pawn moving diagonally to the higher file |
| Pawns.RightHas | src/pawn_moves_white.cpp:25-33 | the right-capture loop emits exactly the diagonal captures to the higher file, carrying the captured piece |
| Pawns.LeftYields | src/pawn_moves_white.cpp:35-43 | one emission of the left-capture loop is a pawn moving diagonally to the lower file |
| Pawns.LeftHas | src/pawn_moves_white.cpp:35-43 | the left-capture loop emits exactly the diagonal captures to the lower file, carrying the captured piece |
| Pawns.DiagonalsHas | src/pawn_moves_white.cpp:25-43 | the two capture loops together emit exactly the pawn's diagonal steps onto squares of the given set, carrying the piece there |
| Pawns.EpCaptureHas | src/pawn_moves_white.cpp:52-68 | one en-passant test emits the capture iff a pawn stands beside the target and lifting both pawns off the rank would not expose the king to a rook or queen on that rank |
| Pawns.EnPassantsHas | src/pawn_moves_white.cpp:45-86 | with a target set, the en-passant part emits exactly the captures onto it by a pawn that attacks it from an allowed-to-reach target, that the rank guard lets through; without one, nothing |
| Pawns.PawnMovesMembers | src/pawn_moves_white.cpp:7-87 | `pawn_moves_white` (and `pawn_moves_black`, mirrored) appends exactly the single pushes, double pushes, captures and guarded en-passant captures of the given pawns that land in `allowed` |
| Pawns.PromotionsMembers | src/promotions_white.cpp:6-104 | `promotions_white` (and `promotions_black`) appends exactly the promoting pushes onto empty squares and promoting captures of enemy pieces, for each promotion piece |
| Pawns.PromotionsReachLastRank | src/promotions_white.cpp:10-103 | from the seventh (second) rank every promotion lands on the last rank and promotes to a queen, rook, bishop or knight |
| Pawns.PromotionsLength | src/promotions_white.cpp:12-103 | four moves per target square: one for each promotion piece |
| Pawns.DiagonalsSplit | src/pawn_moves_white.cpp:25-43 | the captures are the right-capture loop's moves followed by the left-capture loop's |
| Pawns.AppendPushes | src/pawn_moves_white.cpp:12-15 | the push loop appends exactly the single pushes, in square order |
| Pawns.AppendDoubles | src/pawn_moves_white.cpp:18-23 | the double-push loop appends exactly the double pushes, in square order |
| Pawns.AppendDiagonals | src/pawn_moves_white.cpp:26-43 | the two capture loops append exactly the captures, right then left |
| Pawns.AppendEpCapture | src/pawn_moves_white.cpp:52-68 | one en-passant test appends the capture iff the pawn is there and the guard lets it through |
| Pawns.AppendEnPassants | src/pawn_moves_white.cpp:45-86 | the en-passant block appends exactly its guarded captures |
| Pawns.PawnMoves | src/pawn_moves_white.cpp:7-87 | `pawn_moves_white`/`pawn_moves_black` append exactly the side's pawn moves into `allowed` to the list, in the source's order |
| Pawns.Promotions | src/promotions_white.cpp:6-104 | `promotions_white`/`promotions_black` append exactly the side's promotions into `allowed`, queen, rook, bishop, knight per square |
| Emit.Expand | src/promotions_white.cpp:12-39 | one target yields the single move of the loop's kind, or for a promotion the four moves queen, rook, bishop, knight, each recording the piece captured on the target |
| Emit.EmittedHas | src/legal_noncaptures.cpp:167-169 | a loop over a target mask emits exactly one move (four for promotions) per target, from its origin, with the loop's kind and piece |
| Emit.EmittedMembers | src/legal_noncaptures.cpp:167-169 | the moves of a target loop are exactly those its targets yield |
| Emit.EmittedLength | src/legal_noncaptures.cpp:167-169 | a target loop emits one move per target, four for promotions, so no target is emitted twice |
| Emit.EmitTargets | src/legal_noncaptures.cpp:167-169 | the `for (to : mask) emplace_back(...)` loop appends exactly those moves, targets in ascending order |
| Emit.EmittedFromHas | src/legal_noncaptures.cpp:165-170 | the nested loop over pieces and their targets emits exactly the moves of each piece of the set onto its reachable squares within the allowed mask |
| Emit.EmittedFromMembers | src/legal_noncaptures.cpp:165-170 | the moves of the nested loop are exactly those of its pieces |
| Emit.EmittedFromStep | src/legal_noncaptures.cpp:165-170 | the outer loop takes the lowest piece first, then the rest |
| Emit.EmitFrom | src/legal_noncaptures.cpp:165-194 | the knight, bishop, rook and queen loops append exactly the moves of their pieces, pieces in ascending order and targets ascending within each |
| Captures.CaptureTargets | src/legal_captures.cpp:43-52 | in single check the only capture target is the checker; otherwise every enemy piece; always enemy pieces |
| Captures.AppendPinCaptures | src/legal_captures.cpp:62-232 | one turn of a pin loop records the piece as pinned iff lifting it uncovers an enemy slider, and appends the pinned piece's captures along the pin |
| Captures.PinLoopStep | src/legal_captures.cpp:62-204 | the pin loop visits its lowest candidate first, then the rest |
| Captures.PinnedAmongAdd | src/legal_captures.cpp:70-71 | each turn adds the visited square to `bishop_pinned`/`rook_pinned` iff a pinner stands behind it |
| Captures.PinScan | src/legal_captures.cpp:60-233 | the bishop and rook pin loops append exactly the captures of the pinned pieces along their pins and return the pinned set |
| Captures.AppendPawnCaptures | src/legal_captures.cpp:241-498 | the free pawns' captures right and left, then the promoting captures right and left, then en passant, are appended |
| Captures.AppendPieceCaptures | src/legal_captures.cpp:500-542 | the free knights', bishops', rooks' and queens' captures onto allowed squares are appended, in that order |
| Captures.AppendKingCaptures | src/legal_captures.cpp:544-554 | the king's captures onto enemy pieces on squares it may enter are appended |
| Captures.AppendUnforced | src/legal_captures.cpp:43-554 | out of double check, pin loops, free pawns, free pieces and king captures are appended in the source's order |
| Captures.LegalCapturesAsWrittenScan | src/legal_captures.cpp:16-554 | `legal_captures(moves)` as written appends its captures, with en passant not held to the check |
| Captures.LegalCaptures | src/legal_captures.cpp:16-554 | the generator with en passant held to the squares that answer a single check appends exactly the specified captures |
| Captures.ConsistentReady | src/valid.cpp:25-31 | a valid position has both kings and a well-formed en-passant field |
| Captures.HitTakesPiece | src/legal_captures.cpp:504-506 | on a valid position an enemy square a friendly piece hits holds a piece that is not the king, as the source asserts |
| Captures.ReachHits | src/legal_captures.cpp:500-542 | every square a knight, bishop, rook or queen reaches is a square it attacks |
| Captures.PieceCapturesLand | src/legal_captures.cpp:500-542 | every piece capture moves a free piece of its kind to an allowed square it reaches and records the piece standing there |
| Captures.PieceCapturesTake | src/legal_captures.cpp:556-562 | on a valid position every piece capture takes an enemy piece other than the king, from a square that attacks it |
| Captures.PawnCapturesLand | src/legal_captures.cpp:241-498 | every pawn capture moves a free pawn diagonally; en passant lands on the target square behind the double-stepped pawn and passes the rank guard, other captures land on allowed squares and promote exactly from the seventh rank |
| Captures.PawnCapturesTake | src/legal_captures.cpp:556-562 | on a valid position every pawn capture takes an enemy piece other than the king |
| Captures.KingCapturesTake | src/legal_captures.cpp:544-554 | every king capture takes an enemy piece on a square the king may safely enter |
| Captures.PinnerPiece | src/legal_captures.cpp:74-75 | a pinner is an enemy bishop, rook or queen, as the source asserts |
| Captures.PinnedPawnShape | src/legal_captures.cpp:77-194 | a diagonally pinned pawn either takes the pinner or captures en passant onto a square between the king and the pinner |
| Captures.PinnedPieceShape | src/legal_captures.cpp:195-229 | a pinned bishop, rook or queen captures only the pinner |
| Captures.PinCapturesShape | src/legal_captures.cpp:70-229 | each capture of a pinned piece starts at that piece and stays on the pin line: it takes an allowed pinner or lands between king and pinner |
| Captures.PinLoopHas | src/legal_captures.cpp:62-204 | the pin loop's moves are exactly the captures of its candidates |
| Captures.PinLoopTakes | src/legal_captures.cpp:62-232 | every capture of the pin loops stays on the pin line and on a valid position takes an enemy non-king piece |
| Captures.UnforcedTakes | src/legal_captures.cpp:556-562 | out of double check every appended capture takes an enemy piece other than the king |
| Captures.DoubleCheckKingOnly | src/legal_captures.cpp:29-41 | in double check exactly the king's captures onto enemy pieces on safe squares next to it are appended |
| Captures.KingYields | src/legal_captures.cpp:31-39 | a king-loop emission is exactly a king capture of the piece on an allowed target |
| Captures.DoubleCheckTakes | src/legal_captures.cpp:29-41 | in double check every appended capture takes an enemy piece other than the king |
| Captures.LegalCapturesTake | src/legal_captures.cpp:556-562 | on a valid position every move of both generators, as written and as intended, is a capture of an enemy piece other than the king by a piece of the side to move |
| Captures.PinLoopLands | src/legal_captures.cpp:72 | in single check the pin loops only take the checker or capture en passant between king and checker |
| Captures.PawnLands | src/legal_captures.cpp:248-498 | in single check the free pawns only take the checker or capture en passant onto an allowed en-passant square |
| Captures.PieceLands | src/legal_captures.cpp:500-542 | in single check the free pieces only take the checker |
| Captures.KingLands | src/legal_captures.cpp:544-554 | king captures are king moves |
| Captures.UnforcedAnswers | src/legal_captures.cpp:43-554 | with the checker as the only target, every capture lands on the checker, between king and checker, on an allowed en-passant square, or is a king move |
| Captures.SingleCheckAnswers | src/legal_captures.cpp:43-52 | in single check every capture of the corrected generator answers the check: a king move, a capture of the checker, or an en-passant capture removing the checker or landing between it and the king |
| Captures.EnPassantIgnoresCheck | src/legal_captures.cpp:327-369 | as written, in single check a free pawn's en passant that neither removes the checker nor blocks the check is still generated; the corrected generator leaves it out |
| Captures.FreeEnPassant | src/legal_captures.cpp:327-369 | a free pawn beside the en-passant target whose capture passes the rank guard is generated out of double check |
| Captures.PinnedNotFree | src/legal_captures.cpp:235-236 | a piece pinned to the king is recorded as pinned and is not among `nonpinned_pieces` |
| Captures.FreeFrom | src/legal_captures.cpp:241-554 | the free-piece loops only move free pieces or the king |
| Captures.PinnedStayOnLine | src/legal_captures.cpp:60-236 | every capture by a pinned piece takes its pinner or lands between the king and the pinner |
| Noncaptures.HomeSquare | src/legal_noncaptures.cpp:207-226 | `squares::F1`, `squares::G8` and the like: the square on the given file of the side's back rank |
| Noncaptures.AppendPinQuiet | src/legal_noncaptures.cpp:56-105 | one turn of a pin loop records the piece as pinned iff lifting it uncovers an enemy slider, and appends the pinned slider's moves along the pin onto allowed squares |
| Noncaptures.PinQuietLoopStep | src/legal_noncaptures.cpp:56-78 | the pin loop visits its lowest candidate first, then the rest |
| Noncaptures.PinScanStep | src/legal_noncaptures.cpp:56-78 | one turn of the pin loop keeps its moves and pinned set matching the loop's specification |
| Noncaptures.PinQuietScan | src/legal_noncaptures.cpp:54-106 | a pin loop appends exactly the pinned sliders' moves along their pins and returns the pinned set |
| Noncaptures.AppendPawnQuiet | src/legal_noncaptures.cpp:115-162 | the pawns' single steps, promoting steps (four each) and double steps onto allowed squares are appended, in that order |
| Noncaptures.AppendPieceQuiet | src/legal_noncaptures.cpp:164-194 | the free knights', bishops', rooks' and queens' moves onto allowed squares are appended, in that order |
| Noncaptures.AppendKingQuiet | src/legal_noncaptures.cpp:196-202 | the king's steps onto empty squares it may enter are appended |
| Noncaptures.AppendKingSide | src/legal_noncaptures.cpp:207-211 | king-side castling is appended iff the right is held, F and G are empty and neither is attacked |
| Noncaptures.AppendQueenSide | src/legal_noncaptures.cpp:212-216 | queen-side castling is appended iff the right is held, D, C and B are empty and neither D nor C is attacked |
| Noncaptures.AppendCastles | src/legal_noncaptures.cpp:205-229 | king side, then queen side, for the side to move |
| Noncaptures.AppendPinQuietLoops | src/legal_noncaptures.cpp:48-106 | the diagonal then the straight pin loop append their moves and return `bishop_pinned` and `rook_pinned` |
| Noncaptures.AppendFreeQuiet | src/legal_noncaptures.cpp:108-194 | the pawns not pinned diagonally or along the king's rank, then the unpinned pieces, append their moves |
| Noncaptures.AppendKingSteps | src/legal_noncaptures.cpp:196-229 | the king's steps, then castling when not in check |
| Noncaptures.AppendUnforcedQuiet | src/legal_noncaptures.cpp:37-229 | out of double check: pin loops, free pawns and pieces, king steps and castling, onto `allowed` |
| Noncaptures.LegalNoncaptures | src/legal_noncaptures.cpp:16-237 | `legal_noncaptures(moves)` appends exactly the specified quiet moves |
| Noncaptures.NearBetweenEmpty | src/libchess/bitboard.hpp:193-218 | nothing lies between two adjacent squares |
| Noncaptures.CheckLineEmpty | src/legal_noncaptures.cpp:40-46 | the squares between the king and a checker are empty, so blocking squares are quiet targets |
| Noncaptures.OffTheBoard | src/legal_noncaptures.cpp:37 | squares holding no piece are empty |
| Noncaptures.HitLineEmpty | src/attackers.cpp:22-24 | between an attacker and its target lies nothing |
| Noncaptures.QuietTargetsEmpty | src/legal_noncaptures.cpp:37-46 | the quiet targets, in or out of check, are empty squares |
| Noncaptures.PinQuietShape | src/legal_noncaptures.cpp:63-103 | a pinned piece's quiet move is a bishop, rook or queen of the side sliding to an allowed square between the king and its pinner |
| Noncaptures.PinnedSlide | src/legal_noncaptures.cpp:69-101 | the moves of the pinned slider's loop are quiet moves from its square onto the mask |
| Noncaptures.PinQuietLoopHas | src/legal_noncaptures.cpp:56-78 | the pin loop's moves are exactly its candidates' moves |
| Noncaptures.PinQuietLoopShape | src/legal_noncaptures.cpp:54-106 | every pin-loop move slides a pinned bishop, rook or queen to an allowed square between the king and its pinner |
| Noncaptures.PawnQuietLand | src/legal_noncaptures.cpp:115-162 | every pawn move steps one or (over an empty square) two squares ahead onto an allowed square, promoting from the seventh rank |
| Noncaptures.PieceQuietLand | src/legal_noncaptures.cpp:164-194 | every piece move takes a free knight, bishop, rook or queen to an allowed square it reaches |
| Noncaptures.KingQuietLand | src/legal_noncaptures.cpp:196-202 | every king step goes to an empty, safe square next to the king |
| Noncaptures.CastlesLand | src/legal_noncaptures.cpp:205-229 | every castling move is the king's move from E to G or C and passes the castling test |
| Noncaptures.DoubleCheckQuietKingOnly | src/legal_noncaptures.cpp:26-35 | in double check exactly the king's steps onto empty safe squares are appended |
| Noncaptures.KingStepYields | src/legal_noncaptures.cpp:28-33 | a king-loop emission is exactly a quiet king move onto a target |
| Noncaptures.NonKingLand | src/legal_noncaptures.cpp:54-194 | every non-king move is a quiet move, push or promotion of a piece of the side to move onto an allowed square |
| Noncaptures.KingStepsLand | src/legal_noncaptures.cpp:196-229 | every king move is a step onto an empty safe square, or castling when not in check |
| Noncaptures.LegalNoncapturesQuiet | src/legal_noncaptures.cpp:231-236 | every appended move captures nothing and, castling aside, moves a piece of the side to move onto an empty square, as the closing asserts demand |
| Noncaptures.NoncaptureQuiet | src/legal_noncaptures.cpp:231-236 | each appended move is quiet in that sense |
| Noncaptures.NoncaptureGroups | src/legal_noncaptures.cpp:26-229 | in double check every move is a king step; otherwise a pin-loop, pawn, piece, king or castling move |
| Noncaptures.DoubleCheckQuietly | src/legal_noncaptures.cpp:26-35 | the double-check king steps are quiet |
| Noncaptures.NonKingQuietly | src/legal_noncaptures.cpp:54-194 | the pin-loop, pawn and piece moves onto empty squares are quiet |
| Noncaptures.PinLoopQuietly | src/legal_noncaptures.cpp:54-106 | the pin-loop moves onto empty squares are quiet |
| Noncaptures.PawnQuietly | src/legal_noncaptures.cpp:115-162 | the pawn moves onto empty squares are quiet |
| Noncaptures.PieceQuietly | src/legal_noncaptures.cpp:164-194 | the piece moves onto empty squares are quiet |
| Noncaptures.KingQuietQuiet | src/legal_noncaptures.cpp:196-202 | the king steps are quiet |
| Noncaptures.CastlesQuiet | src/legal_noncaptures.cpp:205-229 | the castling moves are quiet |
| Noncaptures.CastleOnQuietly | src/legal_noncaptures.cpp:207-216 | the castling move on either wing is quiet |
| Noncaptures.CastleMoveQuietly | src/legal_noncaptures.cpp:210 | a castling move captures nothing and is made by the king |
| Noncaptures.DoubleCheckStep | src/legal_noncaptures.cpp:28-33 | a double-check move is a quiet king step onto an empty square |
| Noncaptures.SingleCheckBlocks | src/legal_noncaptures.cpp:39-46 | in single check every quiet move is a king step or lands between the king and the checker |
| Noncaptures.CastlingOutOfCheck | src/legal_noncaptures.cpp:204-229 | castling is generated only out of check, and only when its test passes |
| Noncaptures.FileStep | src/legal_noncaptures.cpp:108-117 | a step along the file from a square between king and pinner, not reaching either, stays between them |
| Noncaptures.PawnFileStep | src/legal_noncaptures.cpp:117-138 | a pawn pinned on the king's file steps to a square still between the king and the pinner |
| Noncaptures.PinnedQuietStayOnLine | src/legal_noncaptures.cpp:54-194 | every quiet move of a pinned piece lands between the king and its pinner |
| Noncaptures.PinLoopsOnLine | src/legal_noncaptures.cpp:54-106 | the pin loops' moves land between the king and the pinner |
| Noncaptures.FreeOnLine | src/legal_noncaptures.cpp:108-194 | a pinned piece that the pawn and piece loops still move is a pawn pinned along the king's file, and it stays between the king and the pinner |
| Noncaptures.PinnedPawnStep | src/legal_noncaptures.cpp:117 | a pinned pawn the pawn loop moves stays between the king and the pinner |
| Noncaptures.SamePinner | src/legal_noncaptures.cpp:83-92 | a piece has a single pinner |
| Noncaptures.PinnedPawnOnFile | src/legal_noncaptures.cpp:108-117 | a pinned pawn not excluded by `horizontal_pinned \| bishop_pinned` is pinned along the king's file |
| Legal.AppendLegalMoves | src/legal_moves.cpp:13-16 | `legal_moves(moves)` appends the captures, then the quiet moves |
| Legal.LegalMoves | src/legal_moves.cpp:5-11 | `legal_moves()` is the captures followed by the quiet moves, so its first part is exactly `legal_captures()` |
| Legal.CountMoves | src/count_moves.cpp:5-7 | `count_moves()` is the number of legal moves, the number of captures plus the number of quiet moves |
| Legal.IsLegal | src/is_legal.cpp:5-15 | `is_legal(m)` holds iff m is among the generated captures or quiet moves |
| Legal.ScanFor | src/is_legal.cpp:8-14 | the scan returns true iff the move is in the list |
| Legal.CountCapturing | tests/legal_moves.cpp:28-30 | the number of capturing moves in a list is at most its length |
| Legal.CountCapturingAppend | tests/legal_moves.cpp:28-31 | counting capturing moves distributes over concatenation |
| Legal.CountCapturingUniform | tests/legal_moves.cpp:28-31 | a list of capturing moves counts fully, one of quiet moves not at all |
| Legal.PassesSplitByCapture | tests/legal_moves.cpp:33-42 | on a valid position every move of `legal_captures()` is capturing and every move of `legal_noncaptures()` is not |
| Legal.CapturesAreCapturingMoves | tests/legal_moves.cpp:33-42 | a legal move is capturing iff it is among the captures, and no move is in both lists |
| Legal.CapturesCounted | tests/legal_moves.cpp:23-31 | the capturing moves of `legal_moves()` number exactly `legal_captures().size()`, and the rest `legal_noncaptures().size()` |
| Legal.CheckEvasions | src/check_evasions.cpp:6-30 | `check_evasions()` lists the king's captures onto safe squares next to it, then its steps onto empty safe squares |
| Legal.EvasionShape | src/check_evasions.cpp:14-25 | every evasion is a king move from its square to a safe neighbouring square: a capture recording the enemy piece there, or a quiet step onto an empty square |
| Legal.EvasionCapturesFirst | src/check_evasions.cpp:13-25 | no capture follows a quiet step in the evasion list |
| Legal.CapturesThenQuiet | src/check_evasions.cpp:13-25 | captures followed by quiet moves keep every capture before every quiet move |
| Legal.SubsetCard | src/check_evasions.cpp:27 | a subset is no larger than its superset |
| Legal.KingMaskAtMostEight | src/movegen.cpp:202-212 | a king has at most eight neighbouring squares |
| Legal.EvasionsAtMostEight | src/check_evasions.cpp:27 | `check_evasions()` returns at most eight moves, as the source asserts |
| Legal.NeighbourParts | src/check_evasions.cpp:14-27 | disjoint capture and step targets among the neighbours number at most eight together |
| Legal.EvasionsInDoubleCheck | src/legal_captures.cpp:29-41 | in double check the evasions are exactly the legal moves |
| Legal.EvasionCapturesAgree | src/check_evasions.cpp:14-20 | the evasion captures are the same moves as the double-check king captures of `legal_captures` |
| Legal.EvasionStepsAgree | src/check_evasions.cpp:22-25 | the evasion steps are the same moves as the double-check king steps of `legal_noncaptures` |

## Left out

- Zobrist key values: `src/libchess/zobrist.hpp` is an all-zero placeholder whose interface does not match the calls in `predict_hash.cpp`, and `calculate_hash` is not part of this model. Keys are named by what they stand for, a hash is the set of keys XOR-ed into it, and the actual 64-bit values, including collisions between different key sets, are not modelled.
- Magic table internals: the magic constants, offsets and the 89524-entry table are not modelled. The lookups are the ray-cast of the occupancy restricted to the relevant mask, which is what the table is filled with.
- Bits: the lowest-bit clearing `m & (m - 1)` stays at the level of sets. The iterator and `lsbll` are modelled on square sets (lowest member, then remove it), not on the bit trick.
- Bits.PermuteWraps: states only the first and the last step of the subset enumeration. It is not proved that `permute` steps to the next larger subset of the mask, that each subset is visited exactly once, or that the do-while loops of `movegen.cpp` terminate. That needs carry reasoning on 64-bit words that is left unproved. The tables built from the enumeration are modelled by what they hold (the ray-cast of each subset of the mask), not by the order in which they are filled.
- Squares.FromIndex: requires a non-negative index. The source narrows any `int` to a byte, so a negative index wraps; where the source can pass one, in `south()` and `west()`, the model computes the wrapped byte directly (Squares.Square.South, Squares.Square.West) instead of going through FromIndex.
- Bitboard operators that assign in place (`&=`, `|=`, `^=`, `set`, `clear` on a `Bitboard`) are the same set operations applied to a value. They are not separate members.
- Stream printers (`operator<<` for squares, bitboards and positions) and the command-line drivers in `examples/` are not modelled: they are console I/O and timing.
- `threefold`, `parse_move`, `move_string`, `passed_pawns`, `is_checkmate`, `is_stalemate`, `undonull` and Chess960 rook squares are not modelled. `threefold` is a stub that always returns true, and the others have no implementation in this model's source files. Castling uses the fixed E, H and A squares.
- The `assert`s that only fire in debug builds are preconditions or lemmas here (for example the `valid()` checks around `makemove` and the capture/non-capture checks at the end of the generators). Nothing aborts.
- An unknown move type cannot occur: moves carry a closed datatype of kinds, so the `abort()` branch of `makemove` has no counterpart.
- Fixture positions from the tests (perft counts of the start position and of the en-passant position, the `in_check`, `pinned`, `checkers`, `attackers` and `squares_attacked` fixtures, and the listed FEN strings) are not restated as concrete lemmas. Evaluating whole positions symbolically is beyond the verifier's resource limit. The properties those tests check are proved for every position instead.
- Positions.Position.Perft: requires that every position reached down the tree is one the generator accepts and every generated move is makeable (`PerftSafe`). The model does not prove that `legal_moves` only yields makeable moves from a valid position.
- Positions.Position.Perft: counts in unbounded integers. The 64-bit node counter of the source does not overflow at any depth the tests use.
- Pins.PinnedSide: models `pinned(s, sq)` as written (pinners taken from the side not to move). Its properties are stated for `s` equal to the side to move, where the source is right. The bound of at most eight pinned pieces is not stated.
- Fen.FenRoundTrip: covers the direction board → text → board. The direction text → board → text that `tests/fen.cpp` checks on its list of strings depends on those strings being in canonical form, and is not stated.
- Fen.ReadFen: letters outside `PNBRQKpnbrqk`, and a cursor that leaves the board on malformed input (undefined behaviour in the source), are ignored. `Square(word)` on an en-passant word shorter than two characters, and `>>` into an `int` that overflows, are read as the stream model defines them, not as the C++ library would.
- TranspositionTable: `hashfull` (floating point), `prefetch` (a compiler builtin) and the `new[]`/`delete` memory management are not modelled. Fresh entries are the caller's zero entry instead of zero-filled memory.
- TranspositionTable.TT.constructor: requires an entry size of at most one megabyte, so that the corrected capacity is at least one slot.
- Positions.Position.constructor: models the default constructor only. The constructor that takes a FEN string (`src/libchess/position.hpp:43-51`) is the default one followed by `SetFen`. The flags and hash it leaves unset are modelled as no castling rights and the empty key set.

## Findings

| source | as written | input that shows it | evidently intended | confidence | as-written member | corrected member |
|---|---|---|---|---|---|---|
| src/movegen.cpp:202-212 | each king mask is `adjacent()`, which is `north() \| south()` only (src/libchess/bitboard.hpp:57-59) | king on a1: the mask is {a2} (0x100) | all eight neighbours, {b1, a2, b2} (0x302) for a1, as tests/movegen.cpp:73-77 expect | high, not executed | Movegen.KingMaskAsWrittenA1 | Movegen.CalculateKingMasks |
| src/libchess/square.hpp:20-22 | `Square(f, r)` asserts that the index is non-zero | file 0, rank 0 (a1) fails the assertion | every on-board (file, rank) pair is accepted | high, not executed | Squares.FromFileRankRejectsA1 | Squares.FromFileRank |
| src/pinned.cpp:28 | `pinned(s, sq)` takes the pinning sliders from `!turn()` instead of `!s` | the side to move has no bishop, rook or queen, and a piece of the other side stands between its own king and its own rook: `pinned(!turn(), king)` reports that piece, though nothing pins it | pinners of the side opposite to s | medium, not executed | Pins.PinnedAsWrittenOwnSliders | Pins.PinnedByMembers |
| src/legal_captures.cpp:327-369 | the en-passant capture of a free pawn is not held to the squares that answer a single check | a check by a piece other than the pawn that just double-stepped, with an en-passant capture available that neither removes nor blocks the checker | in single check, en passant only when it captures the checker or lands between it and the king | high, not executed | Captures.EnPassantIgnoresCheck | Captures.SingleCheckAnswers |
| src/predict_hash.cpp:37 | a double pawn step XORs in `ep_key(to)`, the key of the target square | any double step, such as e2e4 from the start position | the key of the file the new en-passant field holds, as in the hash after the move | medium, not executed | HashMatch.PredictAsWrittenMisses | HashMatch.HashMatches |
| src/makemove.cpp:5-137 | `makemove` never updates the half-move clock or the full-move number, while `undomove` decrements the full-move number after a Black move (src/undomove.cpp:23) | any Black move, made then undone: the full-move number ends one lower | make then undo restores every field, as tests/consistency.cpp:37-60 expect | high, not executed | Making.AsWrittenUndoLosesFullmove | Making.UndoMakeRoundTrip |
| src/makemove.cpp:5-137 | `makemove` never updates the stored hash | any move from the start position: the stored hash still has White to move | the stored hash equals a full recomputation after the move (tests/consistency.cpp:49-50) | high, not executed | AfterMove.AsWrittenHashStale | AfterMove.MakeKeepsHash |
| examples/tt.hpp:14 | `mb * 1024 * 1024` is computed in 32-bit `unsigned int`, and the guard `mb < 0` cannot fire | `TT(0)` or `TT(4096)`: zero entries, so `index` divides by zero | at least one megabyte, counted without wrap-around | high, not executed | TranspositionTable.CapacityAsWrittenEmpty | TranspositionTable.CapacityPositive |
| src/set_fen.cpp:113 | `ep_ = Square(word)` assigns a `Square` to the `int` field `ep_` (src/libchess/position.hpp:225), although every conversion of `Square` to an integer is `explicit` (src/libchess/square.hpp:38-56), so the line does not compile as shown. Read with the conversion a compiling revision needs, it stores the square index, while `get_fen` and `makemove` treat `ep_` as a file index (src/get_fen.cpp:117-128, src/makemove.cpp:51) | "… w - e6 0 1" stores 44, and `get_fen` then indexes `files[44]` | the file of the square (4 for e6), so that `set_fen(get_fen())` rebuilds the board | low: the reading assumes a revision where the line compiles; not executed | Fen.AsWrittenEpStoresSquare | Fen.FenRoundTrip |
