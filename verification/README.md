# A model of CWEB

CWEB is Knuth and Levy's pair of literate programming tools. CTANGLE turns a web into a C file, CWEAVE turns it
into a TeX file; both read their input through a common part that also keeps the names. This project models the
algorithms in `AquaSim/cweb` and proves what they are for. Everything that the programs update in place is a class
whose methods follow the original loop by loop; each method is proved against a function on values, and the laws are
proved about those functions, for all inputs.

`dafny verify dfyconfig.toml` verifies the whole project.

## The parts

* **CWEAVE's scrap parser** (`Productions`, `TokenMemory`, `Reductions`, `MathModes`, `ReductionLaws`, `Parse`,
  `Conservation`, `BracketInputs`, `ParseExamples`, `ScrapParser`). C text becomes scraps in a gap buffer; about 110
  productions rewrite a window of four scraps. `Productions` is the table. `Reductions` says what a production does to
  the sequence of live scraps, `ScrapParser` does it on the buffer. Texts refer to earlier texts; `TokenMemory.Flat`
  follows the references and keeps what matters: the original scraps and the switches of math mode. A scrap's
  `mathness` says in which mode its text begins and ends. The parser stops on every input, its result is in the right
  mode throughout, and it accounts for every scrap of the input once, in order: as a leaf of the text, or on record as
  dropped by one of two productions. `Conservation` says when the text holds all of them.
* **What the productions parse** (`Grammar`, `Recognition`, `GrammarSteps`, `ExpressionSteps`, `DeclarationSteps`,
  `StatementSteps`, `GrammarRuns`): `Grammar` is a grammar of C texts that knows nothing of the table: expressions with
  casts and calls, all statements, declarations, functions in the old style and with prototypes. Of every such text the
  parser makes one scrap, of the category of its last item. The proof follows a pushdown machine that recognizes a text
  at any stage of its reduction: no production changes what it reads, and nothing that could still be reduced is left
  before the cursor.
* **CWEAVE's output of texts** (`Flows`, `WeaveOutput`, `WeaveReading`, `Indentation`, `PrintedTexts`): the stack
  machine that reads a text equals recursive reading, and reading the parser's text yields the tokens of the scraps it
  holds, once each, in order and in the mode that each wants; so are the layout codes between them. The codes that move
  the left margin cancel, but for the two steps of a function heading that is left over. `PrintedTexts.TextPrinted`
  brings all this together for C texts.
* **CWEAVE's index** (`LinkedLists`, `IndexOrder`, `IndexSort`): a radix sort with linked lists in 256 buckets and an
  explicit stack.
* **CWEAVE's cross-references** (`XrefLaws`, `Xrefs`): lists of numbers that stand for definitions, citations and
  uses, edited by insertion, by shifting numbers from node to node and by turning links around.
* **CTANGLE** (`TextLinks`, `TangleTokens`, `Expansion`, `CFile`, `Expander`, `Quotation`, `SignReading`,
  `WrittenItems`, `PhaseOne`): replacement texts are encoded in bytes and linked into one chain for each section; a
  stack machine expands the unnamed program. `Expansion.Expand` is the recursive expansion that it is proved to equal;
  `CFile` spells the result, `Quotation` shows that every file is quoted as its spelling expects, `SignReading` says
  which signs in it can be told apart, and `WrittenItems` that the items of the texts are written, all of them and
  nothing else. `PhaseOne` stores macros and C texts and hands the memory to the stack machine: `PhaseOne.Tangle` leads
  from scanned tokens to C files.
* **The common part** (`WebStrings`, `PrefixTree`, `NameChunks`, `SectionNames`, `Identifiers`, `ChangeFile`): the
  tree of section names, searched by abbreviations and keyed by prefixes that shrink; the identifier table; and the
  merge of a web file with a change file.

## What the proofs found

* Productions 84 and 85 replace an angle bracket by a fresh `<` or `>` without appending the bracket's own text. If
  the bracket has absorbed an insertion, such as a comment behind it, the insertion is lost.
  `Conservation.CleanConserves` says that the returned text holds every scrap but brackets, and drops nothing but
  brackets, exactly if no step of the run is such a production on a bracket that has absorbed others. Whether that
  happens can be seen in the input: never when no insertion, nor the end of a preprocessor line that is nearer, stands
  beside a bracket (`BracketInputs.CalmConserves`), and always when the text begins with a bracket and an insertion
  after it and no argument ends in it (`BracketInputs.LeadingBracketDrops`). In between, production 29 can save a
  bracket (`BracketInputs.SavedBracket`). The empty insertion that closes every piece of C text counts, so `|<|` loses
  it; `ParseExamples.CommentIsLost` loses a comment.
* An output section that is used in `@(` but never defined starts at text 0. Its file then begins with a closing marker
  of the section written last and goes on with the unnamed program (`Expander.Tangler.OutputFile`); its markers nest if
  and only if nothing was written before (`Expander.FileNested`). Without an unnamed program the file is never finished
  (`Expander.Tangler.LeaveStart`, `Expander.Tangler.Endless`).
* Names and numerals never run together, and `/` never meets `*`, except across a join or, for names and numerals, an
  empty piece of verbatim text and, for slash and star, any empty quotation, constants included (`CFile.Separated`,
  `SignReading.WordsMeet`). Other signs do run together: blanks are not kept, so `a + +b` becomes `a++b`. A run of signs
  is read back as it was if and only if no sign and the next make up a longer one or begin a comment, and no three dots
  meet (`SignReading.RunReadBack`, `SignReading.PairReadBack`). A slash stands directly before a section's marker, as in
  `//*`, if and only if the marker is what is written next (`SignReading.SlashMarker`).
* A const right behind a parameter list is taken for a part of the function's head when a semicolon, brace, comma,
  assignment or another const follows (production 103). Old-style declarations of parameters may therefore not begin
  with it (`Grammar.ItemOk`).
* `underline_xref` skips uses while it looks for its place, whatever their section. `XrefLaws.UnderlinedOrder` says
  exactly when the list stays in order.
* `new_section_xref` leaves the cross-reference switch as it was when it finds the entry present. When a name is cited
  and then another is used, the use is recorded as a citation if and only if the first name has been cited in the
  section before (`XrefLaws.UseAsCitation`).
* While old lines of a change are compared, those of the change file have their control code put in lower case but
  web lines do not: a line that starts with a capital control code is reported as a mismatch with itself
  (`ChangeFile.EqualLines`).
* A section reference number 10239 would be read as the flag for macro definitions (`TangleTokens.ExactlyClear`); the
  name directory ends at 4000.
* The collating sequence misses byte 127 (`IndexOrder.CollateLists`). A name that begins with it, or has it where it
  must be split from other names, stays in the bucket of that byte and is missing from the index; exactly these names
  are (`IndexSort.Sorter.Sort`). Of a name only the first 255 bytes are compared.

## Model

| member | source | states |
|---|---|---|
| `Productions.Choose` | AquaSim/cweb/cweave.c:2296-2942 | whatever four categories are seen, the chosen production uses each scrap it replaces once and in order, replaces only scraps that are there, lowers the rank of the category if it replaces a single scrap, makes a bracket only of that bracket and an insertion, and what it makes an insertion or the beginning or end of a preprocessor line begins or ends with such a scrap; only the end of a macro argument makes another one |
| `GrammarRuns.TextReduced` | AquaSim/cweb/cweave.c:2245-2945 | every C text of statements, declarations and function definitions, with insertions anywhere between its tokens, is reduced to a single scrap, and its category is stmt, decl or function, as its last item is one |
| `GrammarRuns.StatementReduced` | AquaSim/cweb/cweave.c:2303-2942 | in particular every statement becomes a stmt |
| `GrammarRuns.StepUnderway` | AquaSim/cweb/cweave.c:2269-2945 | one pass of the loop keeps the categories a text of the grammar at some stage of its reduction, ending in the same item, with nothing before the cursor that could still be reduced |
| `Recognition.TextForm` | AquaSim/cweb/cweave.c:2303-2942 | every text of the grammar is read by the machine that recognizes its stages, and ends in its last item |
| `Indentation.EvenChoose` | AquaSim/cweb/cweave.c:2296-2942 | whatever four categories are seen, the margin is left where the category that is made leaves it: two steps to the right for fn_decl, else where it was; it is never moved too far to the left |
| `Indentation.MarginsKept` | AquaSim/cweb/cweave.c:2245-2982 | for every input without fn_decl and end_arg, the indent and outdent codes read from the returned text never move the margin left of where it began, and leave it there but for two steps for each fn_decl that was not reduced |
| `PrintedTexts.TextPrinted` | AquaSim/cweb/cweave.c:2245-2982 | for every C text of the grammar without brackets, with insertions anywhere: reading the returned text yields all its tokens, each once and in order and in a mode it wants; every layout code is read in text mode and math_rel in math mode, and the margin comes back to where it was |
| `MathModes.BigAppGood` | AquaSim/cweb/cweave.c:2003-2019 | appending a character keeps the text under construction readable from its initial to its current mode, inserting the switches that are needed, and leads to the mode that the character wants by its code; which scraps it covers does not change |
| `MathModes.RightMode` | AquaSim/cweb/cweave.c:2006-2019 | the condition of `big_app` sends backup, break_space, force, big_force, cancel and indent to text mode and math_rel to math mode, each by its value |
| `MathModes.BigApp1Good` | AquaSim/cweb/cweave.c:2021-2038 | appending a scrap does the same, and adds exactly what that scrap covers |
| `ReductionLaws.ReduceKeeps` | AquaSim/cweb/cweave.c:2143-2190 | `reduce` keeps every live scrap sound in its modes and the original scraps covered once each, in order |
| `ReductionLaws.ReserveKeeps` | AquaSim/cweb/cweave.c:2068-2087 | turning an identifier and its copies into reserved words changes neither what is covered nor any mode |
| `Reductions.ReservedBegin` | AquaSim/cweb/cweave.c:2068-2087 | after `make_reserved` the identifier and the first tokens of all expressions behind it that began with it are that name as a reserved word, and these scraps are raw_int; all other tokens and scraps are as they were |
| `ReductionLaws.AngleKeeps` | AquaSim/cweb/cweave.c:2787-2800 | the two productions for angle brackets keep both laws; the bracket becomes an operator that holds what the bracket held as dropped, and all other scraps hold what they did |
| `ReductionLaws.FireKeeps` | AquaSim/cweb/cweave.c:2269-2945 | every production keeps the state valid, the modes sound and the scraps accounted for; the new scrap holds what the replaced ones held, and all others hold what they did |
| `Parse.StepShrinks` | AquaSim/cweb/cweave.c:2269-2945 | one pass of the loop makes (live scraps, sum of category ranks, scraps from the cursor on) lexicographically smaller |
| `Parse.Run` | AquaSim/cweb/cweave.c:2245-2945 | the loop ends on every lawful state, with the cursor behind the last scrap and all laws kept |
| `Parse.TranslateIsSound` | AquaSim/cweb/cweave.c:2953-2979 | on every input the returned text leads from outside math mode back to outside, no scrap in it stands in a mode it does not want, and every input scrap is accounted for once, in order, as a leaf or as dropped |
| `Conservation.HoldsForeign` | AquaSim/cweb/cweave.c:2272-2942 | a scrap that is made a bracket, an insertion or an lproc holds something else than brackets |
| `Conservation.StepDrops` | AquaSim/cweb/cweave.c:2787-2800 | a step drops something else than brackets exactly if it is production 84 or 85 on a bracket that has absorbed others |
| `Conservation.RunDrops` | AquaSim/cweb/cweave.c:2269-2945 | a whole run drops nothing but brackets exactly if no step of it is of that kind |
| `Conservation.CleanConserves` | AquaSim/cweb/cweave.c:2245-2979 | on every input the returned text holds every scrap that is no bracket, and nothing but brackets was dropped from it, exactly if the run has no such step |
| `BracketInputs.CalmStep` | AquaSim/cweb/cweave.c:2272-2942 | from a state with no insertion or rproc directly before a bracket and no insertion or lproc directly after one, no step drops more than a bracket, and the next state is of the same kind |
| `BracketInputs.CalmConserves` | AquaSim/cweb/cweave.c:2245-2979 | every input of that kind is returned whole, but for brackets |
| `BracketInputs.SavedBracket` | AquaSim/cweb/cweave.c:2426-2449 | every input of a type name, a bracket and an insertion is not of that kind and is returned whole all the same, because the type name makes the bracket the beginning of an argument list |
| `BracketInputs.LeadingBracketDrops` | AquaSim/cweb/cweave.c:2245-2979 | an input that begins with a bracket and an insertion, and in which no argument ends, is never returned whole |
| `ParseExamples.CommentIsLost` | AquaSim/cweb/cweave.c:2279-2800 | a less-than sign followed by a comment: the comment is not in the returned text |
| `ScrapParser.Parser.BigAppChar` | AquaSim/cweb/cweave.c:2003-2019 | `big_app` on the token memory does what the function BigApp says |
| `ScrapParser.Parser.BigAppScrap` | AquaSim/cweb/cweave.c:2021-2038 | `big_app1` does what BigApp1 says |
| `ScrapParser.Parser.Reduce` | AquaSim/cweb/cweave.c:2143-2190 | `reduce` on the gap buffer, with the moved scraps and the clamped cursor, is Reduce on the sequence of live scraps; scraps below the base stay |
| `ScrapParser.Parser.Squash` | AquaSim/cweb/cweave.c:2196-2239 | `squash` is a recategorization for one scrap and Reduce of the scraps in order for more |
| `ScrapParser.Parser.MakeReserved` | AquaSim/cweb/cweave.c:2068-2087 | the scan over both parts of the gap buffer changes tokens and categories as MakeReserved says |
| `ScrapParser.Parser.Refill` | AquaSim/cweb/cweave.c:2273-2279 | refilling the window keeps the live scraps, and afterwards the window is full or blank behind the last scrap |
| `ScrapParser.Parser.ReplaceAngle` | AquaSim/cweb/cweave.c:2787-2800 | the bracket productions on the gap buffer do what Fire says |
| `ScrapParser.Parser.Perform` | AquaSim/cweb/cweave.c:2269-2945 | any production on the gap buffer does what Fire says, below the base nothing changes |
| `ScrapParser.Parser.OneStep` | AquaSim/cweb/cweave.c:2269-2945 | a pass of the loop is the step chosen by the four categories in the window, and brings the end nearer |
| `ScrapParser.Parser.ReduceAll` | AquaSim/cweb/cweave.c:2245-2945 | the loop of `translate` computes Run |
| `ScrapParser.Parser.Translate` | AquaSim/cweb/cweave.c:2245-2982 | `translate` returns the text that Parse.Translate describes, sound and accounting for every scrap, with every scrap but brackets in it if the input is calm, and leaves scraps below the base alone |
| `ScrapParser.Parser.CTranslate` | AquaSim/cweb/cweave.c:3219-3234 | a nested translation, closing insertion included, returns such a text and restores the outer parse: base, top and every scrap up to it |
| `WeaveOutput.InnerStays` | AquaSim/cweb/cweave.c:3319-3337 | everything read inside an inner text is in inner mode |
| `WeaveOutput.SameItems` | AquaSim/cweb/cweave.c:3319-3337 | the mode does not influence which tokens are read |
| `WeaveOutput.Weaver.PushLevel` | AquaSim/cweb/cweave.c:3290-3306 | what is pending is the new text and then what was pending before |
| `WeaveOutput.Weaver.PopLevel` | AquaSim/cweb/cweave.c:3308-3315 | leaving an exhausted level restores place and mode and changes nothing that is pending |
| `WeaveOutput.Weaver.GetOutput` | AquaSim/cweb/cweave.c:3318-3337 | returns the first item of the recursive reading, in its mode, and leaves the rest; it ends because fewer steps remain |
| `WeaveOutput.Weaver.MakeOutput` | AquaSim/cweb/cweave.c:3364-3382 | reading up to the end mark yields the recursive reading of the text that was built, and what was pending below is still pending |
| `WeaveReading.ReadPieces` | AquaSim/cweb/cweave.c:3318-3337 | reading a text that productions built is reading its signs and original scraps one after the other |
| `WeaveReading.WholesAreLeaves` | AquaSim/cweb/cweave.c:3318-3337 | these original scraps are exactly the leaves of what the text stands for, in order |
| `WeaveReading.ReadingResult` | AquaSim/cweb/cweave.c:2245-2979 | for the text that `translate` returns on any input: reading it yields the tokens of the scraps it holds, each once and in input order, with nothing but characters between; the dollar signs among these lead from text mode back to text mode, every scrap is read in a mode it wants, and so is every layout code |
| `WeaveReading.ScannedInMode` | AquaSim/cweb/cweave.c:2003-2019 | where no character stands in a mode it does not want, backup, break_space, force, big_force, cancel and indent are read in text mode and math_rel in math mode, by their values |
| `WeaveReading.AllRead` | AquaSim/cweb/cweave.c:2953-2979 | where there are no brackets and nothing is dropped, these are all scraps of the input |
| `IndexOrder.CollateLists` | AquaSim/cweb/cweave.c:888-911 | the collating sequence contains exactly the bytes that are neither capital letters nor byte 127 |
| `IndexOrder.RankClasses` | AquaSim/cweb/cweave.c:888-911 | a collated byte has a lower rank than another one exactly if it is of an earlier group, or of the same group and smaller: 0, the blank, 1 to 31, punctuation, the underline, small letters, digits, bytes from 128 on |
| `IndexOrder.CollateAscends` | AquaSim/cweb/cweave.c:888-911 | the table lists the bytes in that order |
| `IndexOrder.LeqTotal` | AquaSim/cweb/cweave.c:4140-4154 | any two names are comparable in the order of the index |
| `IndexOrder.LeqTransitive` | AquaSim/cweb/cweave.c:4140-4154 | that order is transitive |
| `IndexOrder.FirstDifference` | AquaSim/cweb/cweave.c:4139-4154 | names that agree in d bytes are ordered by the rank of byte d, the end of a name being lowest |
| `IndexOrder.BytesDecide` | AquaSim/cweb/cweave.c:4139-4154 | of two names that first differ in collated bytes, exactly the one with the byte of the earlier group, or the smaller byte of one group, comes before the other |
| `IndexSort.BucketsAbove` | AquaSim/cweb/cweave.c:4140-4154 | the last bucket that is not empty may go on top of the stack: lists stay in order |
| `IndexSort.Sorter.Unbucket` | AquaSim/cweb/cweave.c:4139-4154 | all buckets but that of byte 127 are emptied onto the stack, in such an order that lists nearer the top come first in the index; the bucket of byte 127 is left as it was |
| `IndexSort.DealtWhole` | AquaSim/cweb/cweave.c:4078-4096 | when a list of several names is dealt to the buckets, each bucket has all names that agree in one byte more, and the names left in the bucket of byte 127 are lost |
| `IndexSort.AloneKept` | AquaSim/cweb/cweave.c:4004-4075 | a name that is alone in its list is not lost, whatever bytes follow |
| `IndexSort.SortedAlphabetical` | AquaSim/cweb/cweave.c:3979-4104 | names in the order of the index are in alphabetical order wherever their first different bytes are collated |
| `IndexSort.LostAtOnce` | AquaSim/cweb/cweave.c:3985-3991 | a name that begins with byte 127 is lost |
| `IndexSort.Sorter.PrintTop` | AquaSim/cweb/cweave.c:4004-4075 | the top list is printed in place, order is kept, and less remains to be done |
| `IndexSort.Sorter.Split` | AquaSim/cweb/cweave.c:4078-4096 | the top list is split by the next byte of its names; order is kept and less remains to be done |
| `IndexSort.Sorter.Fill` | AquaSim/cweb/cweave.c:3979-3993 | exactly the listed names of the hash chains are in the buckets of their first bytes |
| `IndexSort.Sorter.Sort` | AquaSim/cweb/cweave.c:3979-4104 | the sort ends; exactly the names with cross-references that are not lost are printed, each once, in the order of the collating sequence on 255 bytes; exactly the lost ones are left, in the bucket of byte 127, and all other buckets are empty; of two printed names that first differ in collated bytes the one with the earlier byte comes first, so that alpha comes before beta |
| `XrefLaws.DecreasingPairs` | AquaSim/cweb/cweave.c:1009-1026 | the order of identifier lists, spelled out for any two entries |
| `XrefLaws.WithXrefKeeps` | AquaSim/cweb/cweave.c:1009-1026 | an entry for the current section keeps the list strictly decreasing, replaces a use by a definition but never the reverse, and touches no other section |
| `XrefLaws.DefinitionsKeep` | AquaSim/cweb/cweave.c:1554-1561 | dropping uses keeps the order and exactly the definitions |
| `XrefLaws.RunOrderly` | AquaSim/cweb/cweave.c:1009-1026 | over every sequence of sections, uses, definitions and format commands the list stays in order with one entry for a section |
| `XrefLaws.UnderlinedOrder` | AquaSim/cweb/cweave.c:2107-2138 | underlining keeps the order if and only if the section is listed already or the next lower section listed has a definition |
| `XrefLaws.UnderlinedLookup` | AquaSim/cweb/cweave.c:2107-2138 | afterwards the section is listed with a definition and all other sections as before |
| `XrefLaws.InsertedKeeps` | AquaSim/cweb/cweave.c:1031-1045 | a section name's list stays in order: file flag, definitions, citations, uses, each increasing; one entry is added unless it was there |
| `XrefLaws.InsertedSame` | AquaSim/cweb/cweave.c:1039-1040 | nothing is added if and only if the entry is there |
| `XrefLaws.WithFileKeeps` | AquaSim/cweb/cweave.c:1050-1060 | so it does when the file flag is set: the flag is in the list then, every other entry stays, and one entry is added unless the flag was there |
| `XrefLaws.SectionRunGrouped` | AquaSim/cweb/cweave.c:1031-1060 | over every sequence of sections, settings of the switch and references, the lists of all section names stay in that order |
| `XrefLaws.UseAsCitation` | AquaSim/cweb/cweave.c:1639-1645 | when a name is cited and then another one used, the use is entered as a citation if and only if the first name has been cited in the section already |
| `XrefLaws.FrontIsGroup` | AquaSim/cweb/cweave.c:3904-3934 | in a list in order, the entries above a flag at the front are exactly one group |
| `Xrefs.Table.NewXref` | AquaSim/cweb/cweave.c:1009-1026 | the list of p becomes WithXref of it, all other lists stay, and the switch is reset unless the call is ignored |
| `Xrefs.Table.NewSectionXref` | AquaSim/cweb/cweave.c:1031-1045 | the list of p becomes Inserted of it; in a list in order, the switch is turned off if and only if the entry was not there |
| `Xrefs.Table.SetFileFlag` | AquaSim/cweb/cweave.c:1050-1060 | the file flag comes to the front unless it is there |
| `Xrefs.Table.DropUses` | AquaSim/cweb/cweave.c:1554-1561 | unlinking in place leaves exactly the definitions |
| `Xrefs.Table.MoveUp` | AquaSim/cweb/cweave.c:2129-2133 | the shifting loop moves the numbers before the insertion point up by one node |
| `Xrefs.Table.UnderlineXref` | AquaSim/cweb/cweave.c:2107-2138 | search and shifting insertion compute Underlined |
| `Xrefs.Table.Footnote` | AquaSim/cweb/cweave.c:3904-3934 | prints exactly the entries above the flag from the cursor on, with plural, commas and conjunction, and leaves the cursor at the next group |
| `Xrefs.Table.SectionFootnotes` | AquaSim/cweb/cweave.c:3843-3849 | the three footnotes print the other definitions, the citations and the uses of the section, all of them |
| `Xrefs.Table.TurnAround` | AquaSim/cweb/cweave.c:4051-4058 | the list is reversed in place |
| `Xrefs.Table.IndexEntry` | AquaSim/cweb/cweave.c:4051-4069 | the index entry is the reversed list |
| `Xrefs.TurnedIncreasing` | AquaSim/cweb/cweave.c:4051-4069 | so the sections of a name come in increasing order |
| `TextLinks.Texts.AddText` | AquaSim/cweb/ctangle.c:1449-1462 | the text goes to the end of its section's chain: the links are again those that the list of definitions calls for |
| `TextLinks.Texts.AddMacro` | AquaSim/cweb/ctangle.c:1405-1407 | a macro is linked to nothing and disturbs no chain |
| `TextLinks.LinksForward` | AquaSim/cweb/ctangle.c:1449-1462 | links go forward within a section or end; link 0 marks exactly the macros |
| `TextLinks.ChainDefined` | AquaSim/cweb/ctangle.c:532-539 | following the links lists the texts of the section in order of definition |
| `TextLinks.SectionTexts` | AquaSim/cweb/ctangle.c:514-539 | from a section's entry one reaches all its texts in order, and none if it has no entry |
| `TextLinks.UnnamedTexts` | AquaSim/cweb/ctangle.c:616-617 | from text 0 one reaches all texts of the unnamed program, in order |
| `TangleTokens.RoundTrip` | AquaSim/cweb/ctangle.c:548-588 | reading undoes encoding for every sequence of clear tokens |
| `TangleTokens.ExactlyClear` | AquaSim/cweb/ctangle.c:548-588 | a token is read back if and only if it is clear: no stray delimiter, and no section reference that equals the flag for definitions |
| `TangleTokens.UndoubleDouble` | AquaSim/cweb/ctangle.c:1270-1281 | removing the doubled @ undoes doubling |
| `TangleTokens.TokenWriter.StoreTwoBytes` | AquaSim/cweb/ctangle.c:501-509 | the high byte and then the low byte are appended |
| `TangleTokens.TokenWriter.AppIdentifier` | AquaSim/cweb/ctangle.c:1209-1211 | the bytes appended encode the identifier |
| `TangleTokens.TokenWriter.AppPlace` | AquaSim/cweb/ctangle.c:1193-1200 | the bytes appended encode the line, modulo 65536, and the file |
| `TangleTokens.TokenWriter.AppSection` | AquaSim/cweb/ctangle.c:1230-1243 | the bytes appended encode the reference and its place |
| `TangleTokens.TokenWriter.AppSectionNumber` | AquaSim/cweb/ctangle.c:1436-1440 | the bytes appended encode the section number that opens a C text |
| `TangleTokens.TokenWriter.AppQuoted` | AquaSim/cweb/ctangle.c:1270-1281 | the bytes appended encode the quoted text with doubled @ made single |
| `PhaseOne.SourceStorable` | AquaSim/cweb/ctangle.c:1186-1361 | every macro and every C text is stored as tokens that are read back as they were |
| `PhaseOne.ScanRepl` | AquaSim/cweb/ctangle.c:1205-1354 | the loop appends what every scanned token stands for, with a space after each closing parenthesis of a macro, and notes whether the macro definitions are asked for |
| `PhaseOne.ScanSource` | AquaSim/cweb/ctangle.c:1387-1446 | a macro is its name, a space in quotation unless a parenthesis follows, and its body; a C text is its number, its place and its body |
| `PhaseOne.MadeOk` | AquaSim/cweb/ctangle.c:1365-1465 | what is stored and linked is a program that can be expanded: macros without references, C texts that open with their number, references that lead to lower ranks |
| `PhaseOne.MadeQuotes` | AquaSim/cweb/ctangle.c:1270-1281 | and every text of it closes its quotations |
| `PhaseOne.PhaseOne` | AquaSim/cweb/ctangle.c:1365-1485 | for all macros and C texts, the token memory, the places in it and the links that the first phase leaves hold exactly these texts, in order, each under its section |
| `PhaseOne.Tangle` | AquaSim/cweb/ctangle.c:470-471 | both phases together: from any macros and C texts, in which no section refers to itself, to the main file, all other files, and the exact condition for one that never ends; the names in the main file are the identifiers of the macros and of the unnamed program with all sections in place, in order |
| `Expansion.ExpandNested` | AquaSim/cweb/ctangle.c:552-556 | in every expansion the section markers are well nested with matching numbers |
| `WrittenItems.ExpandTells` | AquaSim/cweb/ctangle.c:547-590 | the expansion of a section writes, apart from closing markers, complaints and the frames of macros, exactly the identifiers, characters, copied bytes, lines and section numbers of its texts, in order, with those of the sections referred to in the places of the references |
| `WrittenItems.MacrosTell` | AquaSim/cweb/ctangle.c:682-717 | every macro is written once, in order, between the beginning and the end of a #define line, item by item as it was defined, without its last newline |
| `WrittenItems.RenderSolid` | AquaSim/cweb/ctangle.c:690-771 | the names, markers, line records and beginnings of macros stand in a file as its events say, each once and in order |
| `WrittenItems.MainNames` | AquaSim/cweb/ctangle.c:609-651 | the names in the main file are the identifiers of the macros, unless placed elsewhere, and of the unnamed program with all sections in place |
| `CFile.Separated` | AquaSim/cweb/ctangle.c:722-810 | for any two neighbouring pieces of a file, quoted material included: two of names and numerals never stand side by side unless they are parts of one numeral or a join or an empty piece of verbatim text is between; outside quotation no slash stands before a star unless a join or an empty quotation is between |
| `CFile.NewlinesGuarded` | AquaSim/cweb/ctangle.c:727-731 | a newline of a text inside a #define line is written behind a blank and a backslash, one in quotation behind a backslash, and any other by itself; further newlines of a file are copied bytes and the ends of #define lines |
| `SignReading.LongestSign` | AquaSim/cweb/ctangle.c:1154-1173 | where no comment begins, the sign that is read is at least as long as every sign whose spelling is there |
| `SignReading.ReadBack` | AquaSim/cweb/ctangle.c:1154-1173 | a run of signs, spelled as `out_char` does, is read back as it was if and only if no sign merges with the next, by an explicit table, and two dots are not followed by a third |
| `SignReading.RunReadBack` | AquaSim/cweb/ctangle.c:779-812 | every run of neighbouring signs of a file, outside quotation, stands there as it is spelled, and is read back under exactly that condition |
| `SignReading.PairReadBack` | AquaSim/cweb/ctangle.c:779-812 | two neighbouring signs are read back as these two if and only if they do not merge, or are slash and star with no join or empty quotation between |
| `SignReading.SlashMarker` | AquaSim/cweb/ctangle.c:753-809 | a slash outside quotation stands directly before a marker if and only if the event that writes next after it is a marker |
| `SignReading.WordsMeet` | AquaSim/cweb/ctangle.c:735-808 | a name or numeral that comes next after a name or numeral is set off by a blank unless the last join or delimiter between is a join or the end of verbatim text, and only then |
| `CFile.QuotedState` | AquaSim/cweb/ctangle.c:806-812 | the output state is verbatim exactly while a quotation is open |
| `Quotation.TokensInside` | AquaSim/cweb/ctangle.c:1270-1281 | what clear tokens mean closes every quotation with the delimiter that opened it |
| `Quotation.FilesInside` | AquaSim/cweb/ctangle.c:609-672 | so do the main file and every other file of a program whose texts do |
| `Expander.Tangler.StoredTokens` | AquaSim/cweb/ctangle.c:1186-1359 | a text stored by the encoder is what the expander reads |
| `Expander.Tangler.PushLevel` | AquaSim/cweb/ctangle.c:514-527 | saves the current place and goes to the section's first text |
| `Expander.Tangler.PopLevel` | AquaSim/cweb/ctangle.c:531-542 | goes to the next text of the section or restores the saved place with its section number |
| `Expander.Tangler.Fetch` | AquaSim/cweb/ctangle.c:558-588 | the bytes at the cursor are read as the next item, and the rest is left |
| `Expander.Tangler.EndText` | AquaSim/cweb/ctangle.c:551-557 | done and still to do together stay the same; less remains; when the stack is left, the number of the bottom section's last text is known |
| `Expander.Tangler.Refer` | AquaSim/cweb/ctangle.c:566-579 | a reference is followed, or skipped if its section has no text; done and to do together stay the expansion |
| `Expander.Tangler.OutputMacro` | AquaSim/cweb/ctangle.c:690-712 | one macro is printed, without its last newline |
| `Expander.Tangler.OutputDefs` | AquaSim/cweb/ctangle.c:682-717 | every macro is printed once, in order, and the expander's place is restored |
| `Expander.Tangler.GetOutput` | AquaSim/cweb/ctangle.c:547-590 | what has been written and what the stack still promises together stay the same, and less remains |
| `Expander.Tangler.Run` | AquaSim/cweb/ctangle.c:649-650 | emptying the stack writes exactly what it promised |
| `Expander.Tangler.MainFile` | AquaSim/cweb/ctangle.c:609-651 | the main file is the macros, unless placed elsewhere, and the recursive expansion of the unnamed program |
| `Expander.Tangler.LeaveStart` | AquaSim/cweb/ctangle.c:551-557 | at the end of text 0 a closing marker of the section written last is written, if any, and the unnamed program comes next; if there is none, the place does not change |
| `Expander.Tangler.Endless` | AquaSim/cweb/ctangle.c:652-672 | for a section without text in a program without unnamed part, after n turns of the loop nothing but n such markers is written and the stack is as it was |
| `Expander.Tangler.OutputFile` | AquaSim/cweb/ctangle.c:652-672 | the file of a section is its expansion; for a section without text it is the stray marker and the expansion of the unnamed program |
| `Expander.Tangler.OutputFiles` | AquaSim/cweb/ctangle.c:652-672 | every output file is written so, up to the first that is never finished, which exists if and only if some section has no text and there is no unnamed program |
| `Expander.Tangler.PhaseTwo` | AquaSim/cweb/ctangle.c:609-675 | the same for the main file and then all others |
| `Expander.FileNested` | AquaSim/cweb/ctangle.c:652-672 | the markers of a file are well nested if and only if its section has a text or nothing was written before |
| `Expansion.LastText` | AquaSim/cweb/ctangle.c:531-542 | a text whose link ends the chain is the last of its section |
| `WebStrings.WebStrcmp` | AquaSim/cweb/common.c:798-809 | the answer is that of the function Cmp |
| `WebStrings.CmpMeaning` | AquaSim/cweb/common.c:798-809 | equal, prefix and extension mean what they say, and otherwise the first differing character decides |
| `WebStrings.LessTransitive` | AquaSim/cweb/common.c:798-809 | the order of incomparable names is transitive |
| `PrefixTree.OneSide` | AquaSim/cweb/common.c:884-906 | at a node whose prefix is incomparable with the name, all matches are on one side |
| `PrefixTree.InsertSorted` | AquaSim/cweb/common.c:814-840 | a leaf inserted where the search ended keeps the tree ordered and prefix-free |
| `PrefixTree.ShortenSorted` | AquaSim/cweb/common.c:923-932 | so does shortening the prefix of the only match |
| `PrefixTree.SortedApart` | AquaSim/cweb/common.c:884-906 | in an ordered tree no stored prefix is comparable with another |
| `SectionNames.NameTable.SectionNameCmp` | AquaSim/cweb/common.c:962-991 | the piecewise comparison classifies the name against the whole stored name, and reports how much of it an extension uses up |
| `SectionNames.NameTable.Search` | AquaSim/cweb/common.c:884-906 | the two-pointer search ends and finds what a scan of all stored prefixes finds: none, the only match, or two |
| `SectionNames.NameTable.AddSectionName` | AquaSim/cweb/common.c:814-840 | the new node carries exactly the name, and all other nodes keep theirs |
| `SectionNames.NameTable.ExtendSectionName` | AquaSim/cweb/common.c:845-864 | the stored name becomes the old one followed by the new piece |
| `SectionNames.NameTable.SetPrefixLength` | AquaSim/cweb/common.c:923-932 | only the stored prefix of the match changes |
| `SectionNames.NameTable.SectionLookup` | AquaSim/cweb/common.c:869-957 | adds a node if and only if no stored prefix is comparable, reports ambiguity if and only if two are, otherwise settles on the only match; the table stays ordered and prefix-free |
| `SectionNames.NameTable.SprintSectionName` | AquaSim/cweb/common.c:762-780 | prints the whole stored name |
| `SectionNames.NameTable.AddIdentifier` | AquaSim/cweb/common.c:687-736 | an identifier entered in the directory disturbs no section name |
| `NameChunks.NameExtended` | AquaSim/cweb/common.c:845-864 | a piece at the end of a chain is appended to the name |
| `Identifiers.IdTable.HashCode` | AquaSim/cweb/common.c:700-705 | the loop computes the hash code, which is in range |
| `Identifiers.IdTable.NamesMatch` | AquaSim/cweb/ctangle.c:478-485 | true exactly for equal names |
| `Identifiers.IdTable.Search` | AquaSim/cweb/common.c:712-713 | a chain is searched to its end: a string not found has no entry |
| `Identifiers.IdTable.IdLookup` | AquaSim/cweb/common.c:687-736 | refines a map from strings to entries; all earlier names keep their bytes |
| `Identifiers.IdTable.AddChunk` | AquaSim/cweb/common.c:858-863 | bytes added for section names change no name |
| `Identifiers.SameEntry` | AquaSim/cweb/common.c:687-736 | two strings have the same entry if and only if they are equal |
| `ChangeFile.Input.SeekX` | AquaSim/cweb/common.c:395-407 | goes to the line after the next @x |
| `ChangeFile.Input.SkipBlanks` | AquaSim/cweb/common.c:410-416 | stops at the first line that is not blank |
| `ChangeFile.Input.Prime` | AquaSim/cweb/common.c:388-424 | the change buffer holds the first old line of the next change |
| `ChangeFile.Input.CheckChange` | AquaSim/cweb/common.c:443-507 | if the line matches, as many web lines as there are old lines are consumed, mismatches are counted and reported, and the new lines come next |
| `ChangeFile.Input.GetLine` | AquaSim/cweb/common.c:542-604 | delivers the next line of the merge, and the number of a web line is its own |
| `ChangeFile.Input.ReadAll` | AquaSim/cweb/common.c:542-604 | successive calls deliver exactly the merge |
| `ChangeFile.MergeApplies` | AquaSim/cweb/common.c:388-604 | for a well-formed change file the merge replaces the old lines of every change, in order, by its new lines and keeps all other web lines |
| `ChangeFile.MergeExpected` | AquaSim/cweb/common.c:388-604 | for a well-formed change file, with the web line by line: lines outside of changes are delivered as they are, and for the old lines of a change its new lines come, each byte as it stands in the change file but for a capital letter behind an at-sign at the beginning, which comes as its small letter |
| `ChangeFile.AllDeliver` | AquaSim/cweb/common.c:563-564 | the same of any lines that are delivered from a change |
| `ChangeFile.EqualLines` | AquaSim/cweb/common.c:463-505 | a replaced line equal to its old line is reported as a mismatch exactly if it starts with a capital control code |

## Left out

- Expander.Tangler.MainFile: the depth of the stack is not bounded; the original stops with an overflow at 50 levels.
- Expander.Tangler.GetOutput: is stated for programs in which no section refers to itself; `Program.rank` witnesses it.
- WeaveOutput.Weaver.MakeOutput: the formatting of the tokens read, and the nested calls for section names, are not part
  of this model.
- GrammarRuns.TextReduced: is stated for a part of C. Structures, enumerations and typedef, whose names become reserved
  words, initial values in braces, bit fields, declarators with parentheses around the name, declarations in loop
  headers, old-style parameters that begin with const, and what C++ adds are not in the grammar; section names stand
  for statements with their semicolon.
- PrintedTexts.TextPrinted: brackets are excluded, because they are replaced; `Conservation.CleanConserves` says of
  them when anything else is lost.
- Indentation.MarginsKept: an input scrap is taken to hold no codes of its own; the end of a macro argument takes
  whatever stands before it, so that inputs with end_arg are excluded.
- ScrapParser.Parser.MakeReserved: changes tokens and categories but not the `ilk` of the name in the directory.
- ScrapParser.Parser.Perform: `make_underlined`, which records definitions in cross-reference lists, is not called
  from the productions; what it does to a list is `Xrefs.Table.UnderlineXref`.
- ScrapParser.Parser.CTranslate: starts from the scraps that `C_parse` appends; which scraps the C tokens become is
  not part of this model. Originals are opaque, and each wants math mode, text mode, or either, at both ends.
- ChangeFile.Input.GetLine: include files and the list of changed sections are not part of this model, lines are
  shorter than the buffer, and both files end with a newline.
- SectionNames.NameTable.SectionLookup: is stated for complete names that do not end in a space, which the scanners
  take off.
- TangleTokens.TokenWriter.AppQuoted: an @ that is not doubled is copied without the error message, and nothing is
  read behind the end of the text.
- IndexSort.Sorter.Sort: is stated for names that are not empty and have no byte 0; of an empty name the original
  reads the first byte of the name that follows it in memory.
- Identifiers.IdTable.IdLookup: is CTANGLE's; the kinds of names that CWEAVE's `names_match` also compares are left out.
- Capacity limits: the original's `overflow` and `fatal` end the run; here memories grow as needed, except that there
  is room for 2500 texts, on which the end mark of chains depends.
- Tracing of reductions, statistics and progress messages.
- PhaseOne.PhaseOne: starts from the tokens that `get_next` delivers, with their places in the name table; a character
  constant `@'...'` comes as the numeral that is stored for it. The code for the macro definitions inside a macro is
  left out: the original stops with an error when it prints such a macro.
- The lexical scanners `get_next`, but for its signs, `skip_ahead`, `copy_TeX` and `copy_comment`.
- The formatting of lines in `make_output`, `flush_buffer` and `break_out`.
- The names of files, the `#line` directives' spelling, transliteration of identifiers and the digits of numbers:
  the C file is a sequence of bytes, names and markers.
- The rest of the repository: Tcl and Tk headers, and the graphical network animator.
