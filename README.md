# Three Advent of Code 2023 solvers, modelled in Dafny

This project models three puzzle solvers of the Rust repository
`kreibaum/aoc2023`. Each one takes the puzzle text and returns a number.

- **Camel cards** (`src/day07.rs`, module `CamelCards`, file `camel_cards.dfy`).
  Each line holds a hand of cards and a bid. `classify_hand_type` gives a hand
  one of seven types; the optional joker rule turns `J` cards into extra copies
  of the most frequent other card. `hand_to_integer_proxy` packs the type and
  the first five cards into one base-16 integer. The hands are stably sorted by
  that integer, and the answer is the sum of bid times rank.
- **Engine schematic** (`src/day03.rs`, module `Schematic`, file `schematic.dfy`).
  `scan_symbols` collects every character that is not a digit or `.` into a map
  keyed by (column, row). `both_parts` scans each line with a `ScannedNumber`
  object whose fields (`number`, `is_part`, `left_x`, `right_x`, `y`) `extend`
  updates digit by digit. A run of digits with a symbol among the eight
  neighbours of one of its digits is a part number. Part 1 is the sum of the
  part numbers. `update_gear_ratio_map` bumps a (product, count) entry in every
  cell of the box around a part number. Part 2 adds the products of the `*`
  cells that exactly two part numbers touch. `is_some` is the predicate
  `ScannedNumber.IsSome`, which `UpdateGearRatioMap` tests first, as the source
  does.
- **Calibration** (`src/day01.rs`, module `Calibration`, file `calibration.dfy`).
  Every suffix of a line goes to a digit decoder: plain digits only
  (`starting_digit`), or digits and the spelled-out words `zero`..`nine`
  (`starting_digit_allow_text`). The first hit and the last hit make a two-digit
  number, and `part01` / `part02` add these numbers up over the lines.

Module `Text` (`text.dfy`) holds the pieces of Rust's standard library that
the solvers share:

- `str::lines`, modelled as `Lines`;
- `str::split` on one character, modelled as `Split`;
- decimal digits and the value of a digit string (`DigitOf`, `DecimalValue`).

Module `Options` (`options.dfy`) holds the `Option` datatype.

The model follows the source's own shape:

- Pure functions such as `card_to_ordinal`, `starting_digit` and
  `hand_to_integer_proxy` are Dafny functions.
- Code with loops and updates becomes methods with loop invariants. Each method
  is proved against a specification function, and lemmas prove the puzzle's
  properties about those functions:
  - `classify_hand_type` works on a 15-slot `array<nat>`, changed in place;
  - `ScannedNumber` is a class;
  - `decode_into_number`, `part01`/`part02`, `scan_symbols`, `symbol_in_nbhd`,
    `update_gear_ratio_map`, `both_parts` and `solve_day07` are methods.
- A panic in the source (an unknown card, a missing bid, a bid that does not
  parse, fewer than five cards) is the `None` of an `Option` result.

## Model

| member | source | states |
|---|---|---|
| Text.DigitOf | src/day03.rs:15 | a digit character's value is at most 9, and the character is `'0'` plus that value |
| Text.JoinSplit | src/day07.rs:4 | gluing the parts of `split(sep)` back together with `sep` gives the original line |
| Text.SplitJoin | src/day07.rs:4 | splitting parts joined by `sep` gives back the parts, when no part holds `sep` |
| Text.LinesUnlines | src/day07.rs:3 | `lines()` reads back each line that was written followed by a line feed, for lines without a line feed or a trailing carriage return |
| Calibration.StartingDigit | src/day01.rs:36-40 | the result is some digit exactly when the slice is non-empty and starts with a decimal digit, and then it is that digit's value |
| Calibration.StartingDigitAllowText | src/day01.rs:44-69 | agrees with `starting_digit` when that finds a digit; otherwise a result k means the slice starts with the word for k, and no result means it starts with no digit word |
| Calibration.SpelledDigitsExclusive | src/day01.rs:47-69 | no slice starts with the words of two different digits, so the order of the `starts_with` tests does not matter |
| Calibration.AllowTextWord | src/day01.rs:47-69 | without a leading decimal digit, the result is k exactly when the slice starts with the word for k |
| Calibration.HitsAbsent | src/day01.rs:22-30 | neither a first nor a last digit is found exactly when no suffix decodes |
| Calibration.FirstHitIsEarliest | src/day01.rs:25-27 | the first digit kept is the decoder's result at the smallest index whose suffix decodes |
| Calibration.LastHitIsLatest | src/day01.rs:28 | the last digit kept is the decoder's result at the largest index whose suffix decodes |
| Calibration.CalibrationValue | src/day01.rs:31-32 | a line's number is at most 99 |
| Calibration.CalibrationValueFirstLast | src/day01.rs:19-33 | a line's number is ten times the digit at the first decoding index plus the digit at the last one |
| Calibration.CalibrationValueSingle | src/day01.rs:25-32 | a line with one decoding index whose digit is d gives 11 times d |
| Calibration.OverlappingWords | src/day01.rs:22-24 | in "eightwo" both overlapping words count: the number is 82 |
| Calibration.DecodeIntoNumber | src/day01.rs:19-33 | the loop over every suffix returns the line's number (first and last hit), at most 99 |
| Calibration.TotalCalibrationBound | src/day01.rs:2-16 | the total is at most 99 per line |
| Calibration.SumOverLines | src/day01.rs:3-7 | the running total, for any decoder, is the sum of the numbers of the lines |
| Calibration.Part01 | src/day01.rs:2-8 | part 1 is the sum of the lines' numbers with plain digits, at most 99 per line |
| Calibration.Part02 | src/day01.rs:10-16 | part 2 is the sum of the lines' numbers with digits and words, at most 99 per line |
| CamelCards.Strength | src/day07.rs:57-66 | each hand type's discriminant is below 7, so it fits in the 3 bits above the cards |
| CamelCards.CardToOrdinal | src/day07.rs:68-91 | every known card's ordinal lies in 2..14, or 1..14 with jokers, so it fits in 4 bits |
| CamelCards.KnownCards | src/day07.rs:68-91 | a card has an ordinal exactly when it is one of the thirteen cards; any other character is the source's panic |
| CamelCards.FaceValues | src/day07.rs:69-85 | `2`..`9` count their face value; `J` counts 11, or 1 with jokers |
| CamelCards.OrdinalAt | src/day07.rs:69-88 | the ordinal of the card at each position of the card order, with and without jokers |
| CamelCards.OrdinalsAscend | src/day07.rs:68-91 | ordinals strictly increase along 2..9, T, J, Q, K, A (J first with jokers) |
| CamelCards.MaxCount | src/day07.rs:121 | `iter().max()` is at least every entry and is one of them |
| CamelCards.Occurrences | src/day07.rs:130 | the `filter(count == v).count()` is how often v occurs in the table |
| CamelCards.BestSlot | src/day07.rs:105-112 | the max loop picks 0 exactly when slots 2..14 are empty, and otherwise the first slot holding their largest count, because the comparison is strict |
| CamelCards.CountByOrdinal | src/day07.rs:96-99 | the filled 15-slot array is the count table of the cards; `None` exactly when a card is unknown |
| CamelCards.MostFrequentOrdinal | src/day07.rs:105-112 | the loop's `max_count_i` is the slot BestSlot names |
| CamelCards.MoveJokers | src/day07.rs:118-119 | the array afterwards has the jokers added to the best slot and slot 1 emptied |
| CamelCards.ClassifyHandType | src/day07.rs:95-142 | the method returns the specified classification of the cards, or `None` where the source panics |
| CamelCards.MaxOfShape | src/day07.rs:121 | the largest count is the largest entry of the table's shape, the multiset of its nonzero entries |
| CamelCards.TypeByShape | src/day07.rs:121-141 | the chain of tests depends only on the largest entry and the number of twos in the shape |
| CamelCards.TableChain | src/day07.rs:121-141 | each row of the puzzle's table ({5}, {4,1}, {3,2}, {3,1,1}, {2,2,1}, {2,1,1,1}, {1,1,1,1,1}) is what the chain gives for that row |
| CamelCards.TypeTable | src/day07.rs:121-141 | for every count table whose shape the puzzle lists, the chain of tests gives that shape's type |
| CamelCards.WithoutJokers | src/day07.rs:95-142 | without jokers a non-empty hand is classified by its own count table: no slot is moved |
| CamelCards.TallySum | src/day07.rs:96-99 | the count table adds up to the number of cards |
| CamelCards.JokersMovedSum | src/day07.rs:118-119 | moving the jokers keeps the total number of cards |
| CamelCards.AllJokers | src/day07.rs:114-116 | with jokers, a hand of jokers only is five of a kind |
| CamelCards.JokersJoinBest | src/day07.rs:101-119 | with jokers and some other card, the jokers go to the most frequent other card (the lowest ordinal on a tie), the type is read from the moved table, and that table still adds up to the number of cards |
| CamelCards.ProxyKey | src/day07.rs:44-54 | the key is six entries: the type's discriminant, then five ordinals below 16 |
| CamelCards.FromBase16Base16 | src/day07.rs:44-54 | repeated division and remainder by 16 recover a key whose entries after the first are below 16 |
| CamelCards.HandToIntegerProxy | src/day07.rs:44-54 | the proxy is the key (type, then the first five cards) read in base 16, and it is below 7 * 2^20 |
| CamelCards.ProxyRoundTrip | src/day07.rs:44-54 | dividing the proxy by powers of 16 and taking remainders gives back the hand type and the five ordinals |
| CamelCards.Base16Order | src/day07.rs:44-54 | for keys of equal length with hex entries after the first, numeric order is lexicographic order, and equal values mean equal keys |
| CamelCards.ProxyOrder | src/day07.rs:44-54 | one hand's proxy is less than another's exactly when its (type, card 1, ..., card 5) is lexicographically smaller; proxies are equal exactly when the keys are |
| CamelCards.StrongerTypeWins | src/day07.rs:48 | a stronger hand type has the larger proxy, whatever the cards |
| CamelCards.NewHand | src/day07.rs:33-42 | `Hand::new` keeps the cards and the bid, stores the classification and the proxy of that type; `None` exactly when a card is unknown or there are fewer than five |
| CamelCards.ParseU128 | src/day07.rs:6 | a parsed bid is below 2^128 |
| CamelCards.ParseU128Numeral | src/day07.rs:6 | every 128-bit value parses from its numeral, with or without a leading `+` |
| CamelCards.ParseLineRoundTrip | src/day07.rs:4-6 | a line of cards, a space and the bid's numeral parses back to those cards and that bid |
| CamelCards.ParseHandsFails | src/day07.rs:3-8 | once a line fails to parse, so does the whole input |
| CamelCards.ParseHandsStep | src/day07.rs:3-8 | one more line adds that line's hand, or fails |
| CamelCards.InsertKeepsHands | src/day07.rs:9 | inserting a hand into a sorted sequence adds exactly that hand |
| CamelCards.InsertKeepsOrder | src/day07.rs:9 | inserting keeps the order of the hands of every proxy, with the new hand first among its equals |
| CamelCards.InsertKeepsSorted | src/day07.rs:9 | inserting keeps the sequence ascending by proxy |
| CamelCards.SortByProxy | src/day07.rs:9 | `sort_by_key` on the proxy gives a permutation, ascending, in which hands with equal proxies keep their input order (stable) |
| CamelCards.StableOrderUnique | src/day07.rs:9 | two ascending arrangements keeping equal proxies in the same order are the same sequence |
| CamelCards.WinningsOfStableOrder | src/day07.rs:9-18 | any stable ascending arrangement of the hands gives the same total winning |
| CamelCards.TotalWinning | src/day07.rs:15-18 | the loop's total is the sum of bid times (position + 1) |
| CamelCards.SolveDay07 | src/day07.rs:1-22 | the answer is the total winning of the parsed hands stably sorted by proxy; `None` exactly when some line makes the source panic |
| Schematic.ScanSymbols | src/day03.rs:98-111 | the map holds (x, y) exactly when column x of line y is not a digit or `.`, and maps it to that character |
| Schematic.SymbolMapUnique | src/day03.rs:98-111 | the input determines the symbol map |
| Schematic.SymbolInNbhd | src/day03.rs:113-125 | true exactly when one of the eight cells around (x, y) is a key of the map |
| Schematic.NeighbourInMap | src/day03.rs:113-125 | looking the neighbours up in the symbol map is looking at the text's neighbours |
| Schematic.RunStart | src/day03.rs:13-16 | the digits just before column k form a run that cannot be extended to the left |
| Schematic.ClosedRuns | src/day03.rs:13-26 | every run a non-digit has ended before column k is maximal |
| Schematic.ClosedRunsExactly | src/day03.rs:13-26 | the runs ended before column k are exactly the maximal runs ending before k |
| Schematic.ClosedRunsOrdered | src/day03.rs:13-26 | the ended runs are in order and do not touch |
| Schematic.AllRunsExactly | src/day03.rs:11-33 | the runs of a line, including one open at the end of the line, are exactly its maximal runs of digits |
| Schematic.LeftEdge | src/day03.rs:75-77 | `left_x` ends at the first nonzero digit of the run, or the last digit when all are zeros |
| Schematic.DecimalValueZero | src/day03.rs:75 | a run is worth 0 exactly when all its digits are zeros |
| Schematic.LeftEdgeStep | src/day03.rs:75-78 | one more digit moves `left_x` to its column exactly when the value so far is 0 |
| Schematic.PartsOfExactly | src/day03.rs:18-33 | the part numbers of some runs are the runs that touch a symbol |
| Schematic.RowPartsExactly | src/day03.rs:11-33 | a line's part numbers are its maximal runs that touch a symbol |
| Schematic.BoxExactly | src/day03.rs:88-89 | the box is the columns left_x - 1..right_x + 1 and rows y - 1..y + 1 |
| Schematic.AddPartEntry | src/day03.rs:84-95 | a part number worth more than 0 adds one to the count and multiplies the product of every cell of its box, a missing cell starting at (1, 0); other cells are unchanged |
| Schematic.AddAllTable | src/day03.rs:18-33 | after all part numbers, each cell counts the nonzero part numbers around it and holds the product of their values |
| Schematic.GearRatioMeaning | src/day03.rs:40-45 | the gear map's cells are those next to a nonzero part number; one adds to part 2 the product of its part numbers exactly when it holds `*` and two part numbers touch it |
| Schematic.GearRatioSumRemove | src/day03.rs:40-45 | the sum over the gear map does not depend on the order the cells are visited in |
| Schematic.SumGearRatios | src/day03.rs:40-45 | the filter and sum over the map, in any iteration order, is the sum of the gear ratios, the `*` test reading the symbol map |
| Schematic.ScannedNumber.constructor | src/day03.rs:59-67 | `new` sets every field to zero and `is_part` to false |
| Schematic.ScannedNumber.Extend | src/day03.rs:73-82 | appends the digit to the value, moves `left_x` only while the value was 0, sets `right_x` and `y`, and `is_part` becomes true once a digit has a symbol neighbour, never false again |
| Schematic.ScannedNumber.UpdateGearRatioMap | src/day03.rs:84-95 | the nested loops leave the map as AddPart specifies: unchanged for a value of 0, otherwise every box cell bumped |
| Schematic.DigitStep | src/day03.rs:75-80 | a digit extends the open run: its value, start and left edge step as `extend` steps them |
| Schematic.TouchesStep | src/day03.rs:81 | one more digit touches a symbol exactly when it or an earlier digit of the run does |
| Schematic.ExtendKeepsState | src/day03.rs:15-16 | after `extend`, the scanner's fields are the value, symbol contact, left edge, last column and row of the run so far |
| Schematic.OtherStep | src/day03.rs:17-25 | a non-digit ends the open run, which becomes a part number exactly when it touches a symbol |
| Schematic.CloseKeepsState | src/day03.rs:17-25 | at a non-digit, tracking the scanner and resetting it accounts for exactly the runs ended so far |
| Schematic.RowStep | src/day03.rs:28-33 | at the end of a line, the run still open is the line's last part number if it touches a symbol |
| Schematic.EndKeepsState | src/day03.rs:28-33 | after the final `if number.is_part`, the accumulator and gear map account for every line so far |
| Schematic.StartKeepsState | src/day03.rs:12 | a line starts with a fresh scanner and nothing of the line accounted |
| Schematic.TrackNumber | src/day03.rs:18-23 | a part number adds its value to the accumulator and its box to the gear map; any other run changes neither |
| Schematic.ExtendScanner | src/day03.rs:15-16 | the digit branch keeps the scanner in step with the open run |
| Schematic.ScanLine | src/day03.rs:11-34 | one line adds exactly that line's part numbers to the accumulator and the gear map |
| Schematic.BothParts | src/day03.rs:3-47 | part 1 is the sum of all part numbers; part 2 is the sum of the gear ratios of the gear map those part numbers build |

## Left out

- Reading the input file (`src/utils.rs`) and `src/main.rs`, the entry point; its `regex`-based `get_color_maxes` is not part of this model. The solvers take the text as a string.
- The `println!` tracing in `solve_day07`.
- The unit tests: they compare against answers for input files that are not part of this model.
- Machine widths: `u128`, `u64`, `u32` and `u8` values and `i32` coordinates are unbounded `nat`/`int`, so no overflow or wrap-around is modelled.
- Byte slicing of non-ASCII text (`&line[i..]` in `decode_into_number`, `line.len()`): text is a sequence of characters, one per byte.
- The iteration order of `HashMap`: part 2 picks cells in an arbitrary order, and `GearRatioSumRemove` proves that the order does not matter.
- The updates through `&mut HashMap`: `UpdateGearRatioMap` returns the updated map and `both_parts` stores it. The maps are values, so aliasing is not modelled.
- The algorithm inside the standard library's `sort_by_key`: `SortByProxy` is a stable insertion sort on a sequence, proved ascending, a permutation and stable. `StableOrderUnique` shows that any stable sort gives the same order. The in-place update of the vector is not modelled.
- A decoder in `decode_into_number` returns an ASCII digit value 0..9 (the `Digit` type), which both decoders of the source satisfy.
- `decode_into_number` panics on a line without any digit; `DecodeIntoNumber`, `Part01` and `Part02` require every line to hold one, as the source's comment assumes.
- A hand of more than five cards is classified by all its cards, and its proxy uses the first five, as in the source. A `u8` count that overflows is not modelled.
- A run with leading zeros is modelled as written: `left_x` is the column of the first nonzero digit (`LeftEdge`), so the gear box starts there. A run worth 0 never changes the gear map, because `update_gear_ratio_map` returns early when `is_some` is false.
- `Text.Lines` follows the current standard library's `str::lines`: a final line that ends in a bare `\r` without a line feed keeps that `\r`. Older releases, which split on `\n` and then stripped one `\r` from every piece, would drop it.
- An interval-remapping solver: its source is not part of this model.
