# esmapper data pipeline, modelled in Dafny

This project models the data half of the mOctave esmapper. The esmapper draws maps of the Endless Sky universe from the game's data files. The model covers:

- **Line tokenizer and tree builder** (`Parser`, `Node`). A data file is a sequence of lines. Each line is tokenized, honouring `"` and `` ` `` quoting and `#` comments. A leading `add` or `remove` token becomes the node's flag. Tab depth places each node in a forest, using a stack of ancestors.
- **Field helpers** (`Builder`). Scalar readers return a default or null on REMOVE. There are map upserts and deletes, the list merge of `modifyList`, and the paragraph merge of `modifyDescription`.
- **Entity builders and modifiers.** These are the constructors and `applyModifiers` of star systems, planets, stellar objects, wormholes and galaxies, plus the commodity table of `Trade`.
- **Events and the map registries.** An event collects allow-listed modifier nodes and link/unlink maps. `GalacticMap.load` builds the registries from the node list, then applies the listed events in order.

**How Java's behaviour is represented:**

- Java `null` is `Option.None`.
- An exception that ends an operation is an `ok`/`thrown` result, never a precondition. Examples are the NullPointerException of a failed registry lookup and the IndexOutOfBoundsException of a lone `add`.
- `Integer.parseInt` and `Double.parseDouble` are a `NumberSyntax` parameter of partial functions.
- Doubles are `real`.
- The tribute fleet counts are 32-bit `int`s and wrap around explicitly.
- The iteration order of a `HashMap`'s keys is a parameter. The model promises only that it lists each key once.

**Form of the model.** Each entity class is a Dafny `class` whose methods update its fields in place. Every such method is proved against a function on the entity's field values: `Built`, `Modified`, `ApplyAll`, `AbsorbAll`, `ModifyAll` and so on. Lemmas then state the source's promises about those functions.

**How the node tree is held.** The parser builds nodes in a `NodeHeap`. It holds one record per node and one child-reference list per node, and `addChild` appends to a list in place. The builders read nodes as `Node` values.

**How the map registries are held.** They hold the entities' field values. The map is the only holder of the entities `load` builds, so modifying an entity through the map replaces its entry.

**Source quirks modelled as written.** The model follows the code, including four behaviours the surrounding design does not suggest:

- The unlink loop of `Event.apply` takes each partner system from the link map, not the unlink map. `GalacticMaps.UnlinkWithoutLink` shows an unlink with no matching link throwing. `GalacticMaps.IntendedUnlink` states what the loop does with the partner from the unlink map.
- Planet modifiers compare the planet's own name, not the child's name, for eight of their branches. See `Planets.ModifierIgnoresDescription` and `Planets.ModifierFollowsPlanetName`.
- A star system's `attributes` modifier edits the list with the enclosing modifier node. See `StarSystems.ModifiedAttributesFromEnclosingNode`.
- A star system's `objectsModified` flag is reset for every child. See `StarSystems.ModifierObjects`.

## Model

| member | source | states |
|---|---|---|
| Common.Wrap32 | src/moctave/esmapper/Planet.java:326-332 | the result is congruent to its argument modulo 2^32 and is the argument itself when that fits in an `int` |
| Common.Wrap32Add | src/moctave/esmapper/Planet.java:326-332 | a running `int` total wrapped at every step ends where the wrapped mathematical total does |
| Nodes.Flag.Code | src/moctave/esmapper/Node.java:22-24 | the flag codes are NORMAL=0, ADD=1, REMOVE=-1, each code belonging to exactly one flag |
| Nodes.FlagCodeInjective | src/moctave/esmapper/Node.java:22-24 | distinct flags have distinct codes |
| Nodes.LastNamed | src/moctave/esmapper/Galaxy.java:27-33 | the node found has the name and is in the list; none found means no node has the name |
| Nodes.LastNamedIsLast | src/moctave/esmapper/Galaxy.java:27-33 | the node found is the last of its name: no later node of the list has the name, so it is the child whose assignment stays in force |
| Nodes.NamedChildren | src/moctave/esmapper/StarSystem.java:45-56 | every node kept has the name and comes from the list |
| Nodes.NamedChildrenExact | src/moctave/esmapper/StarSystem.java:45-56 | a node is kept if and only if it is in the list and has the name |
| Nodes.NamedChildrenConcat | src/moctave/esmapper/StarSystem.java:45-56 | the kept nodes stay in source order: filtering a concatenation is concatenating the filtered parts |
| Nodes.NodeHeap.NewNode | src/moctave/esmapper/Node.java:26-44 | a new node with exactly the given fields and an empty child list is added; the global node count goes up by exactly one |
| Nodes.NodeHeap.AddChild | src/moctave/esmapper/Node.java:66-68 | the child is appended at the end of the parent's child list; every other list and every node's fields are unchanged |
| Nodes.NodeHeap.constructor | src/moctave/esmapper/Node.java:26-44 | no nodes yet, and the node count starts where the caller's count stands |
| Builder.CheckRemovalCases | src/moctave/esmapper/Builder.java:22-27 | null exactly for a REMOVE node, the node itself otherwise |
| Builder.AsStringCases | src/moctave/esmapper/Builder.java:29-45 | null exactly on REMOVE or without arguments, the first argument otherwise |
| Builder.AsIntCases | src/moctave/esmapper/Builder.java:47-91 | the default on REMOVE, on a missing argument and on a parse failure; the parsed first argument otherwise |
| Builder.AsDoubleCases | src/moctave/esmapper/Builder.java:93-137 | the same three cases for doubles |
| Builder.AsCoordinateCases | src/moctave/esmapper/Builder.java:198-222 | null exactly on REMOVE, with fewer than two arguments or when either fails to parse; the parsed pair otherwise |
| Builder.AsSpriteCases | src/moctave/esmapper/Builder.java:224-241 | null exactly on REMOVE or without arguments, otherwise a sprite of the node |
| Builder.MapDoubleCases | src/moctave/esmapper/Builder.java:139-164 | fewer than two arguments leave the map alone even for REMOVE; only the key `args[0]` changes: it is deleted on REMOVE, or set to the parsed value, or left alone when the value does not parse |
| Builder.ParseAll | src/moctave/esmapper/Builder.java:180-191 | a successful parse has one value per string |
| Builder.ParseAllAt | src/moctave/esmapper/Builder.java:180-191 | the parse succeeds exactly when every string parses, and then yields the values position by position |
| Builder.PrefixFails | src/moctave/esmapper/Builder.java:180-191 | one unparsable value makes the whole array fail |
| Builder.MapDoubleArray | src/moctave/esmapper/Builder.java:166-196 | fewer than two arguments leave the map alone; REMOVE deletes the key; otherwise the key gets every later argument parsed, or nothing changes when one fails to parse |
| Builder.FirstIndex | src/moctave/esmapper/Builder.java:344-351 | the index of the first occurrence of the value, or the length when it is absent |
| Builder.RemoveFirstCuts | src/moctave/esmapper/Builder.java:344-351 | `List.remove(Object)` cuts out exactly the first occurrence and keeps the order of the rest |
| Builder.RemoveFirstMultiset | src/moctave/esmapper/Builder.java:344-351 | it takes away one copy of the value, and nothing when there is none |
| Builder.RemoveEachMultiset | src/moctave/esmapper/Builder.java:344-351 | removing the arguments in turn takes away one copy of each |
| Builder.ModifyList | src/moctave/esmapper/Builder.java:331-358 | ADD appends every argument in order; REMOVE without arguments gives an empty list; REMOVE with arguments removes the first occurrence of each in turn; NORMAL replaces the list by the arguments |
| Builder.ModifyDescription | src/moctave/esmapper/Builder.java:360-380 | with ADD or earlier changes the text gains the paragraph `text + "\n"` at its end; otherwise REMOVE resets it to a tab and NORMAL to a tab followed by the paragraph |
| Builder.PairsLastWins | src/moctave/esmapper/Event.java:28-39 | a key is present exactly when it was before or some node gives it a value, and then it holds the last value given |
| Lexer.TrimCuts | src/moctave/esmapper/Parser.java:96 | `trim` leaves a slice of the line that starts and ends above ' ', and everything cut off is at most ' ' |
| Lexer.Find | src/moctave/esmapper/Parser.java:104-126 | the index of the first matching quote, or the length when there is none |
| Lexer.WordEnd | src/moctave/esmapper/Parser.java:113-130 | the index where an unquoted token stops: the first space or `#` |
| Lexer.ScanIsPending | src/moctave/esmapper/Parser.java:101-139 | from every state of the scanner, the character loop yields exactly the tokens of the token grammar |
| Lexer.Tokenize | src/moctave/esmapper/Parser.java:96-139 | the character loop of `makeNewNode` yields exactly the tokens of the trimmed line |
| Lexer.EmptyTokenNeedsQuotePair | src/moctave/esmapper/Parser.java:102-126 | an empty token arises only from a quote immediately followed by the same quote, so spaces between tokens never make one |
| Lexer.UnquotedTokensAreWords | src/moctave/esmapper/Parser.java:102-133 | without quotes, every token is non-empty and holds no space and no `#` |
| Lexer.QuotedToken | src/moctave/esmapper/Parser.java:104-127 | a quoted token is everything up to the matching quote, spaces and `#` included, and tokenizing resumes after it |
| Lexer.CommentEndsLine | src/moctave/esmapper/Parser.java:127-130 | an unquoted `#` discards the rest of the line |
| Lexer.UnterminatedQuote | src/moctave/esmapper/Parser.java:136-139 | a non-empty unterminated final token is still emitted |
| Lexer.ShapeOf | src/moctave/esmapper/Parser.java:141-162 | no tokens give no node; a lone `add` or `remove` throws; otherwise the first token is the name and the rest are the arguments, after a leading `add` or `remove` that sets the flag |
| Lexer.BlankOrCommentLineMakesNoNode | src/moctave/esmapper/Parser.java:95-142 | an empty or all-whitespace line makes no node |
| Lexer.CommentLineMakesNoNode | src/moctave/esmapper/Parser.java:127-142 | a line whose first token starts with `#` makes no node |
| Lexer.Tabs | src/moctave/esmapper/Parser.java:169-175 | the length of the longest all-tab prefix, never more than the line's length |
| Lexer.CountLeadingTabs | src/moctave/esmapper/Parser.java:169-175 | the counter loop returns the length of the longest all-tab prefix |
| Parsing.Popped | src/moctave/esmapper/Parser.java:63-65 | popping leaves a prefix of the stack with at most `tabs` entries, or the stack itself |
| Parsing.AdjustStack | src/moctave/esmapper/Parser.java:59-66 | with more tabs than the previous line and a previous node, that node is pushed once; otherwise the stack is popped down to the tab count |
| Parsing.Shapes | src/moctave/esmapper/Parser.java:56-67 | one shape per line |
| Parsing.Parser.constructor | src/moctave/esmapper/Parser.java:25-36 | a parser of the given file and provenance, with no current node and line number 0 |
| Parsing.Parser.MakeNewNode | src/moctave/esmapper/Parser.java:95-163 | a line that describes a node adds exactly that node, with the current line number and provenance; a line without tokens adds nothing; a lone `add` or `remove` throws |
| Parsing.Parser.Attach | src/moctave/esmapper/Parser.java:69-84 | with an empty stack the node is handed over as a top-level node; otherwise it becomes the last child of the stack top |
| Parsing.Step | src/moctave/esmapper/Parser.java:57-86 | one line on the forest state: it throws exactly on a lone `add` or `remove`; otherwise `lastTabs` becomes the line's tab count and the stack never holds more nodes than that count |
| Parsing.Run | src/moctave/esmapper/Parser.java:56-87 | the state after the lines, read in order, stays consistent: every stack entry and the current node are existing nodes |
| Parsing.RunCompletes | src/moctave/esmapper/Parser.java:56-87 | the lines are all read exactly when none of them is a lone `add` or `remove` |
| Parsing.UnindentedIsTopLevel | src/moctave/esmapper/Parser.java:60-80 | a node on a line without leading tabs is always handed over as a top-level node and gets no parent |
| Parsing.DeeperIsLastChild | src/moctave/esmapper/Parser.java:60-83 | a line indented deeper than a previous node-making line becomes that node's last child, and nothing is handed over |
| Parsing.FlatFileIsFlat | src/moctave/esmapper/Parser.java:56-87 | when no line is indented, every node made is handed over, in order, and none has children; earlier nodes keep their children |
| Parsing.Parser.ParseLine | src/moctave/esmapper/Parser.java:56-86 | one line: the line number goes up by one; the node (if any) goes to the end of `added` when the adjusted stack is empty and otherwise becomes the last child of its top; `lastTabs` becomes the line's tab count; all of this is one `Step` of the forest state |
| Parsing.Parser.ParseStep | src/moctave/esmapper/Parser.java:56-86 | one line extends the node records by that line's node and moves the forest state by one `Step`, leaving the earlier nodes' child lists alone |
| Parsing.Parser.Parse | src/moctave/esmapper/Parser.java:46-93 | `parse` completes exactly when no line is a lone `add` or `remove`; it then makes one node per node-bearing line, in order, and the top-level nodes handed over and every node's children are those of `Run` over the lines; the children of nodes made earlier never change |
| StellarObjects.NewStellarObject | src/moctave/esmapper/StellarObject.java:21-40 | the recursive constructor builds the object its node describes |
| StellarObjects.AbsorbedName | src/moctave/esmapper/StellarObject.java:24-25 | the name is the first argument when there is one, else none |
| StellarObjects.AbsorbedOrbital | src/moctave/esmapper/StellarObject.java:30-49 | distance, period and offset default to 0 and are set by the last child of their name |
| StellarObjects.AbsorbedSprite | src/moctave/esmapper/StellarObject.java:28-29 | the sprite starts absent and is set by the last `sprite` child |
| StellarObjects.AbsorbedChildren | src/moctave/esmapper/StellarObject.java:36-37 | nested `object` children become the children, in source order, each built recursively |
| StellarObjects.HasNamedChildrenIffNamedDescendant | src/moctave/esmapper/StellarObject.java:62-70 | `hasNamedChildren` holds exactly when some strict descendant, at any depth, is named |
| StellarObjects.NamedFromIff | src/moctave/esmapper/StellarObject.java:63-69 | the loop from child `i` finds a named descendant exactly when one exists there |
| StarSystems.KindOfEntry | src/moctave/esmapper/StarSystem.java:35-99 | a branch of the `equals` chain is taken exactly by the children of its name |
| StarSystems.AbsorbStep | src/moctave/esmapper/StarSystem.java:32-100 | one constructor child never changes the name, and only its own branch touches a list, by appending |
| StarSystems.BuiltArgs | src/moctave/esmapper/StarSystem.java:45-56 | during construction, the `attributes` and `link` children accumulate all their arguments, in order |
| StarSystems.BuiltObjects | src/moctave/esmapper/StarSystem.java:49-50 | during construction, `object` children append their objects in order |
| StarSystems.Constructed | src/moctave/esmapper/StarSystem.java:45-56 | the constructed attributes and hyperlinks are all the arguments of the `attributes` and `link` children, and the objects are one per `object` child, in order |
| StarSystems.ApproachLastWins | src/moctave/esmapper/StarSystem.java:65-90 | the last `link` grandchild fixes the hyper distance and the last `jump` grandchild the jump distance |
| StarSystems.ArrivalRule | src/moctave/esmapper/StarSystem.java:65-90 | an `arrival` child with grandchildren takes its distances from them; without grandchildren both distances take the child's value |
| StarSystems.StarSystem.constructor | src/moctave/esmapper/StarSystem.java:23-101 | the name is the first argument, and the fields are those of the whole child loop |
| StarSystems.StarSystem.AbsorbChildren | src/moctave/esmapper/StarSystem.java:32-100 | the constructor's child loop leaves the fields of `Built` |
| StarSystems.StarSystem.Approaches | src/moctave/esmapper/StarSystem.java:68-83 | the grandchild loop of `arrival` and `departure` computes the two distances |
| StarSystems.ModifierFlags | src/moctave/esmapper/StarSystem.java:152-157 | `inaccessible`, `hidden` and `shrouded` modifiers set their flag to `flag != REMOVE` |
| StarSystems.ModifierLinks | src/moctave/esmapper/StarSystem.java:177-188 | a REMOVE `link` with arguments cuts out only the first occurrence of `args[0]`; one without arguments clears the list; any other flag appends every argument |
| StarSystems.ModifierObjects | src/moctave/esmapper/StarSystem.java:150-176 | since `objectsModified` is reset for each child, ADD appends one object, NORMAL leaves exactly that object, and REMOVE clears the list |
| StarSystems.ModifyStep | src/moctave/esmapper/StarSystem.java:147-207 | one modifier child changes the attributes only through `modifyList`, and the hyperlinks or objects only in their own branch |
| StarSystems.ModifiedAttributesFromEnclosingNode | src/moctave/esmapper/StarSystem.java:162-163 | the attributes are edited with the enclosing modifier node, so its flag and arguments decide them whatever the child says |
| StarSystems.ModifiedKeepsLinks | src/moctave/esmapper/StarSystem.java:177-188 | a modifier without a `link` child leaves the hyperlinks alone |
| StarSystems.ModifiedKeepsObjects | src/moctave/esmapper/StarSystem.java:166-176 | a modifier without an `object` child leaves the objects alone |
| StarSystems.AppliedModifier | src/moctave/esmapper/StarSystem.java:147-207 | a NORMAL modifier with an `attributes` child sets the attributes to its own arguments; without `link` or `object` children those lists are unchanged |
| StarSystems.StarSystem.ApplyModifiers | src/moctave/esmapper/StarSystem.java:147-207 | `applyModifiers` leaves the fields of `Modified` |
| StarSystems.StarSystem.AddHyperlink | src/moctave/esmapper/StarSystem.java:482-484 | appends the hyperlink and changes nothing else |
| StarSystems.StarSystem.RemoveHyperlink | src/moctave/esmapper/StarSystem.java:486-488 | removes the first occurrence, and nothing for null; nothing else changes |
| StarSystems.StarSystem.Appended | src/moctave/esmapper/StarSystem.java:274-278 | every item joins the end of the list, in order; this is also the argument loop of `attributes` and `link` children (lines 46-48 and 54-56) |
| StarSystems.StarSystem.ScanHead | src/moctave/esmapper/StarSystem.java:268-280 | one turn of the loop takes the head (kept only when named) and leaves the work list the head's successors: the rest, then the head's children when it has named children |
| StarSystems.StarSystem.GetAllNamedObjects | src/moctave/esmapper/StarSystem.java:263-284 | the breadth-first work-list loop returns the named-object scan of the system's objects and changes nothing |
| StarSystems.NamedScanIsExact | src/moctave/esmapper/StarSystem.java:263-284 | the scan yields exactly the named objects of the whole object forest, each as often as it occurs: pruning objects without named children loses nothing |
| StarSystems.Flat | src/moctave/esmapper/StarSystem.java:263-284 | flattening a forest has one entry per object |
| StarSystems.NamedOnly | src/moctave/esmapper/StarSystem.java:270-272 | only named objects are kept |
| Planets.KindsMark | src/moctave/esmapper/Planet.java:31-60 | the five list-like branches are taken by exactly the children of their name |
| Planets.AbsorbStep | src/moctave/esmapper/Planet.java:31-89 | one constructor child never changes the name; `attributes` replaces the list; description and spaceport paragraphs and shipyard and outfitter entries are appended in their own branch only |
| Planets.BuiltAttributes | src/moctave/esmapper/Planet.java:35-36 | the last `attributes` child wins |
| Planets.BuiltDescription | src/moctave/esmapper/Planet.java:41-44 | each `description` child appends `text + "\n"` to a text that starts as a tab |
| Planets.BuiltSpaceport | src/moctave/esmapper/Planet.java:43-44 | the same for `spaceport` children |
| Planets.BuiltOffers | src/moctave/esmapper/Planet.java:49-52 | `shipyard` and `outfitter` children append their first argument (or null), in order |
| Planets.Constructed | src/moctave/esmapper/Planet.java:23-60 | the name is the first argument; the last `attributes` child wins; descriptions accumulate after a tab; shipyards and outfitters accumulate in order |
| Planets.BuiltName | src/moctave/esmapper/Planet.java:25-29 | the constructor's name is the first argument, whatever the children |
| Planets.TributeCases | src/moctave/esmapper/Planet.java:61-88 | a missing value skips the whole tribute; otherwise the value is set when it parses, and the grandchildren are read either way |
| Planets.GrandsTouchOnlyTribute | src/moctave/esmapper/Planet.java:68-85 | the grandchild loop changes only the threshold and the fleets |
| Planets.GrandsAbort | src/moctave/esmapper/Planet.java:68-88 | a `threshold` without an argument ends the loop, so the grandchildren after it are never read |
| Planets.GrandStepFleet | src/moctave/esmapper/Planet.java:76-82 | one grandchild adds to a fleet exactly when it lists that fleet |
| Planets.GrandsFleets | src/moctave/esmapper/Planet.java:68-85 | without an aborting threshold, a fleet is present exactly when it was before or some grandchild lists it, and its count is the 32-bit wrapped total of all its counts |
| Planets.AddedFleet | src/moctave/esmapper/Planet.java:326-332 | a repeated fleet adds to its count with `int` wrap-around; a new fleet is inserted with the count; no other fleet changes |
| Planets.Planet.constructor | src/moctave/esmapper/Planet.java:23-91 | the fields are those of the whole child loop |
| Planets.Planet.ReadGrands | src/moctave/esmapper/Planet.java:68-88 | the tribute's grandchild loop, left early by a threshold without an argument |
| Planets.Planet.AbsorbChildren | src/moctave/esmapper/Planet.java:31-89 | the constructor's child loop leaves the fields of `Built` |
| Planets.Planet.ReadTribute | src/moctave/esmapper/Planet.java:61-88 | a `tribute` child without a value changes nothing; otherwise the value and the grandchildren are read as `TributeOf` says |
| Planets.Planet.AddTributeFleet | src/moctave/esmapper/Planet.java:326-332 | the fleets become `AddedFleet` of the old ones; nothing else changes |
| Planets.Planet.ApplyModifiers | src/moctave/esmapper/Planet.java:119-190 | `applyModifiers` leaves the fields of `Modified` and reports the NullPointerException of an unnamed planet |
| Planets.Planet.ModifyChild | src/moctave/esmapper/Planet.java:120-187 | one modifier child, with the two "modified" flags carried between turns, leaves the fields, flags and exception of `Modify` |
| Planets.ModifierKindThrows | src/moctave/esmapper/Planet.java:124-145 | only a planet without a name throws, and only on a child other than `attributes` |
| Planets.ModifierIgnoresDescription | src/moctave/esmapper/Planet.java:126-145 | on a planet whose name is none of the eight names, a child named `description` (or any of the eight) takes no branch |
| Planets.ModifierFollowsPlanetName | src/moctave/esmapper/Planet.java:126-145 | on a planet named after one of the eight branches, every child not named `attributes` takes that branch |
| Planets.RemoveRestores | src/moctave/esmapper/Planet.java:148-158 | REMOVE restores bribe to 0.01 and security to 0.25, and resets the tribute to value 0, threshold 4000 and no fleets |
| Planets.TributeTouchesOnlyTribute | src/moctave/esmapper/Planet.java:159-187 | a `tribute` child changes only the three tribute fields |
| Planets.ModifyStep | src/moctave/esmapper/Planet.java:120-145 | one modifier child throws only on a missing branch, never changes the name, changes the attributes only through `modifyList`, and keeps a modified description growing |
| Planets.DescriptionOnlyGrows | src/moctave/esmapper/Planet.java:120-137 | once the description was modified, the "modified" flag persists and later children only append to it |
| Planets.NamedPlanetKinds | src/moctave/esmapper/Planet.java:124-145 | on a named planet every child takes a branch, and exactly the `attributes` children take that one |
| Planets.ModifiedAttributes | src/moctave/esmapper/Planet.java:124-125 | on a named planet nothing throws, and the attributes are the `modifyList` edits of the `attributes` children, in order |
| Galaxies.LastWins | src/moctave/esmapper/Galaxy.java:27-33 | the name never changes; the last `pos` child and the last `sprite` child win; without one the field keeps its value |
| Galaxies.RemoveClears | src/moctave/esmapper/Galaxy.java:42-49 | a REMOVE `pos` or `sprite` modifier leaves that field null |
| Galaxies.Galaxy.constructor | src/moctave/esmapper/Galaxy.java:18-39 | the galaxy starts at the origin without a sprite and then takes its children in order |
| Galaxies.Galaxy.ApplyModifiers | src/moctave/esmapper/Galaxy.java:41-50 | the same child loop as the constructor's, applied to the current fields |
| Wormholes.ConstructedNames | src/moctave/esmapper/Wormhole.java:26-36 | the name never changes, and the last `display name` child sets the display name (null included) |
| Wormholes.ConstructedMappable | src/moctave/esmapper/Wormhole.java:37-38 | the wormhole is mappable exactly when a `mappable` child is present |
| Wormholes.ConstructedLinks | src/moctave/esmapper/Wormhole.java:39-44 | the links are the pairs of the `link` children with two arguments, the last one for a key winning |
| Wormholes.Modified | src/moctave/esmapper/Wormhole.java:59-84 | the last `display name` modifier decides the display name, with "???" for null; the last `mappable` modifier sets the flag to `flag != REMOVE`; the links evolve as `LinksAfter` says |
| Wormholes.RemoveLinkForgets | src/moctave/esmapper/Wormhole.java:71-72 | a REMOVE `link` modifier clears every link made before it, whatever its arguments |
| Wormholes.LinksOnlyPut | src/moctave/esmapper/Wormhole.java:70-79 | without REMOVE `link` modifiers the links are only ever put |
| Wormholes.Wormhole.constructor | src/moctave/esmapper/Wormhole.java:23-56 | the display name starts as "???", the wormhole unmappable and unlinked, and the child loop then runs |
| Wormholes.Wormhole.ApplyModifiers | src/moctave/esmapper/Wormhole.java:58-84 | the modifier loop leaves the fields of `ModifyAll` |
| Wormholes.Wormhole.GetLink | src/moctave/esmapper/Wormhole.java:98-100 | the linked system for a key, or null exactly when the key has no link |
| Trades.OnlyCommodities | src/moctave/esmapper/Trade.java:24-33 | only `commodity` children change the table |
| Trades.Accumulates | src/moctave/esmapper/Trade.java:22-33 | the table is shared: reading two `trade` nodes in turn is reading their children in sequence |
| Trades.CommoditiesNonEmpty | src/moctave/esmapper/Trade.java:24-33 | every stored price array holds at least one price |
| Trades.Trade.AddTradeInfo | src/moctave/esmapper/Trade.java:24-33 | the table after the call is that of the `commodity` children through `mapDoubleArray`, and every stored array stays non-empty |
| Trades.Trade.constructor | src/moctave/esmapper/Trade.java:22 | the commodity table starts empty |
| Trades.Trade.GetCommodityData | src/moctave/esmapper/Trade.java:35-37 | the stored array, or null exactly when the commodity is unknown |
| Trades.Trade.GetMinCommodityPrice | src/moctave/esmapper/Trade.java:39-45 | 0 for an unknown commodity, otherwise the first price |
| Trades.Trade.GetMaxCommodityPrice | src/moctave/esmapper/Trade.java:47-53 | 0 for an unknown commodity, otherwise the second price; a one-price array throws |
| Events.AllowedExactly | src/moctave/esmapper/Event.java:11-14 | the allow-list filter keeps exactly the nodes whose names are allowed |
| Events.ConstructedLinks | src/moctave/esmapper/Event.java:25-39 | the name never changes, and the link and unlink maps are the pairs of the `link` and `unlink` children, the last one for a key winning |
| Events.AbsorbStep | src/moctave/esmapper/Event.java:25-39 | one constructor child changes the link map only if it is a `link` child and the unlink map only if it is an `unlink` child, and never the name |
| Events.ConstructedModifiers | src/moctave/esmapper/Event.java:40-42 | the modifier nodes are the allowed children, in source order |
| Events.TargetCases | src/moctave/esmapper/Event.java:63-82 | a node without a label is skipped; a labelled node of one of the five entity names targets the entity its label names |
| Events.WormholeUnreachable | src/moctave/esmapper/Event.java:80-81 | no modifier node of a constructed event reaches the `wormhole` branch, since `wormhole` is not allowed |
| Events.Event.constructor | src/moctave/esmapper/Event.java:16-44 | the fields are those of `AbsorbAll` over the children |
| Events.Event.AddLink | src/moctave/esmapper/Event.java:133-135 | puts the pair in the link map; nothing else changes |
| Events.Event.AddUnlink | src/moctave/esmapper/Event.java:137-139 | puts the pair in the unlink map; nothing else changes |
| Events.Event.AddModifierNode | src/moctave/esmapper/Event.java:141-143 | appends the node; nothing else changes |
| Events.Event.GetLink | src/moctave/esmapper/Event.java:109-111 | the linked system, or null exactly when the key has no link |
| Events.Event.GetUnlink | src/moctave/esmapper/Event.java:117-119 | the unlinked system, or null exactly when the key has none |
| GalacticMaps.EntriesAt | src/moctave/esmapper/GalacticMap.java:48-52 | an event list contributes its names in order |
| GalacticMaps.ConfigureFlags | src/moctave/esmapper/GalacticMap.java:56-64 | one child sets a flag exactly when it has the flag's name |
| GalacticMaps.SettingsPluginsOnly | src/moctave/esmapper/GalacticMap.java:56-57 | `pluginsOnly` is true exactly when a `plugins only` child is present |
| GalacticMaps.SettingsIncludeHidden | src/moctave/esmapper/GalacticMap.java:58-59 | `includeHidden` is true exactly when an `include hidden` child is present |
| GalacticMaps.SettingsIncludeUnmappable | src/moctave/esmapper/GalacticMap.java:60-61 | the unmappable-wormholes flag is true exactly when its child is present |
| GalacticMaps.SettingsPaintUninhabited | src/moctave/esmapper/GalacticMap.java:62-63 | `paintUninhabited` is true exactly when its child is present |
| GalacticMaps.SettingsPaintMode | src/moctave/esmapper/GalacticMap.java:44-45 | the paint mode stays "government" unless a `paint` child is present; then the last one decides, null on REMOVE or without an argument |
| GalacticMaps.ConfigurePaint | src/moctave/esmapper/GalacticMap.java:44-45 | only a `paint` child sets the paint mode |
| GalacticMaps.SettingsEvents | src/moctave/esmapper/GalacticMap.java:46-55 | `events` gains, in source order, each `event` child's entry and each `event list` child's events; an `event list` without an argument adds nothing |
| GalacticMaps.ConfigureEvents | src/moctave/esmapper/GalacticMap.java:46-55 | each child appends its own contribution to `events` and removes nothing |
| GalacticMaps.KeptExactly | src/moctave/esmapper/GalacticMap.java:102-117 | `load` builds an entity of a kind from exactly the considered nodes of that name |
| GalacticMaps.PopulateSystems | src/moctave/esmapper/GalacticMap.java:102-117 | one turn of the first loop changes the systems registry only for a considered `system` node, which it puts under its name |
| GalacticMaps.PopulateGalaxies | src/moctave/esmapper/GalacticMap.java:102-117 | one turn of the first loop changes the galaxies registry only for a considered `galaxy` node, which it puts under its name |
| GalacticMaps.PopulateGovernments | src/moctave/esmapper/GalacticMap.java:102-117 | one turn of the first loop changes the governments registry only for a considered `government` node, which it puts under its name |
| GalacticMaps.PopulateWormholes | src/moctave/esmapper/GalacticMap.java:102-117 | one turn of the first loop changes the wormholes registry only for a considered `wormhole` node, which it puts under its name |
| GalacticMaps.PopulatePlanets | src/moctave/esmapper/GalacticMap.java:102-117 | one turn of the first loop changes the planets registry only for a considered `planet` node, which it puts under its name |
| GalacticMaps.RegisterLastWins | src/moctave/esmapper/GalacticMap.java:365-383 | a name is registered exactly when it was before or some node carries it, and then it holds the entity built from the last such node |
| GalacticMaps.PopulatedSystems | src/moctave/esmapper/GalacticMap.java:102-117 | `load`'s first loop fills the systems from the considered `system` nodes alone, in order |
| GalacticMaps.PopulatedGalaxies | src/moctave/esmapper/GalacticMap.java:102-117 | the same for galaxies |
| GalacticMaps.PopulatedGovernments | src/moctave/esmapper/GalacticMap.java:102-117 | the same for governments |
| GalacticMaps.PopulatedWormholes | src/moctave/esmapper/GalacticMap.java:102-117 | the same for wormholes |
| GalacticMaps.PopulatedPlanets | src/moctave/esmapper/GalacticMap.java:102-117 | the same for planets |
| GalacticMaps.GovernmentLookup | src/moctave/esmapper/GalacticMap.java:405-414 | the government of that name, otherwise "Uninhabited", otherwise null |
| GalacticMaps.UnlabelledSkipped | src/moctave/esmapper/Event.java:63-70 | a modifier node without a label is skipped and the later nodes are still applied |
| GalacticMaps.LinkStepLinks | src/moctave/esmapper/Event.java:86-89 | a completed link turn only appends, and links the two systems both ways |
| GalacticMaps.LinkAllGrows | src/moctave/esmapper/Event.java:86-89 | a completed link loop only appends hyperlinks |
| GalacticMaps.LinkedBothWays | src/moctave/esmapper/Event.java:86-89 | after a completed link loop, every key's system links to its partner and the partner's system links back |
| GalacticMaps.UnlinkWithoutLink | src/moctave/esmapper/Event.java:91-94 | the unlink loop reads the partner from the link map: an unlinked key the event does not link looks up the null system and throws, and its system loses nothing |
| GalacticMaps.IntendedUnlink | src/moctave/esmapper/Event.java:91-94 | with the partner read from the unlink map, the turn completes when both systems exist, and each loses one hyperlink to the other |
| GalacticMaps.UninhabitedIff | src/moctave/esmapper/StarSystem.java:243-261 | when every named object has a planet, the system is uninhabited exactly when each planet is marked "uninhabited" or is a wormhole; in particular when there is no named object |
| GalacticMaps.UninhabitedThrows | src/moctave/esmapper/StarSystem.java:249-255 | `isUninhabited` throws only when some named object has no planet |
| GalacticMaps.GalacticMap.constructor | src/moctave/esmapper/GalacticMap.java:27-82 | the settings are those of the child loop from the defaults, and the registries start empty |
| GalacticMaps.GalacticMap.AddEvents | src/moctave/esmapper/GalacticMap.java:50-52 | the events of the list are appended in order |
| GalacticMaps.GalacticMap.ConfigureChild | src/moctave/esmapper/GalacticMap.java:37-65 | one turn of the constructor's child loop changes the settings as `Configure` says and leaves the registries alone |
| GalacticMaps.GalacticMap.GetSystem | src/moctave/esmapper/GalacticMap.java:385-393 | the system of that name, or null exactly when there is none |
| GalacticMaps.GalacticMap.GetGalaxy | src/moctave/esmapper/GalacticMap.java:395-403 | the galaxy of that name, or null exactly when there is none |
| GalacticMaps.GalacticMap.GetGovernment | src/moctave/esmapper/GalacticMap.java:405-414 | the government of that name, falling back to "Uninhabited", null exactly when neither exists |
| GalacticMaps.GalacticMap.GetWormhole | src/moctave/esmapper/GalacticMap.java:416-424 | the wormhole of that name, or null exactly when there is none |
| GalacticMaps.GalacticMap.GetPlanet | src/moctave/esmapper/GalacticMap.java:426-434 | the planet of that name, or null exactly when there is none |
| GalacticMaps.GalacticMap.AddStarSystem | src/moctave/esmapper/GalacticMap.java:365-367 | the system is put under its name, replacing any other |
| GalacticMaps.GalacticMap.AddGalaxy | src/moctave/esmapper/GalacticMap.java:369-371 | the galaxy is put under its name |
| GalacticMaps.GalacticMap.AddGovernment | src/moctave/esmapper/GalacticMap.java:373-375 | the government is put under its name |
| GalacticMaps.GalacticMap.AddWormhole | src/moctave/esmapper/GalacticMap.java:377-379 | the wormhole is put under its name |
| GalacticMaps.GalacticMap.AddPlanet | src/moctave/esmapper/GalacticMap.java:381-383 | the planet is put under its name |
| GalacticMaps.GalacticMap.Load | src/moctave/esmapper/GalacticMap.java:98-137 | the registries are built from the nodes first, then the listed events run in order, stopping at the first exception; the settings do not change |
| GalacticMaps.GalacticMap.BuildEntities | src/moctave/esmapper/GalacticMap.java:102-117 | the first loop leaves the registries of `Populated` |
| GalacticMaps.GalacticMap.ApplyEvents | src/moctave/esmapper/GalacticMap.java:121-124 | each event named in `events` is looked up and applied in order; an unknown name throws |
| GalacticMaps.GalacticMap.AddEntity | src/moctave/esmapper/GalacticMap.java:102-117 | one turn of the first loop registers the entity built from a considered node; the settings do not change |
| GalacticMaps.GalacticMap.ApplyEvent | src/moctave/esmapper/Event.java:59-101 | modifier nodes first, then the links, then the unlinks, stopping at the first exception |
| GalacticMaps.GalacticMap.Modify | src/moctave/esmapper/Event.java:63-83 | a labelled node is dispatched by name to the entity its label names, which applies its modifiers; a missing entity throws |
| GalacticMaps.GalacticMap.ModifyAll | src/moctave/esmapper/Event.java:63-83 | the modifier loop applies the nodes in order and stops at the first exception; the settings do not change |
| GalacticMaps.GalacticMap.Link | src/moctave/esmapper/Event.java:86-89 | `k`'s system gains a hyperlink to `v`, then `v`'s system one to `k`; either lookup may throw |
| GalacticMaps.GalacticMap.Unlink | src/moctave/esmapper/Event.java:91-94 | `k`'s system loses its hyperlink to the partner, then the partner's system loses its hyperlink to `k`; either lookup may throw |
| GalacticMaps.GalacticMap.AddLinks | src/moctave/esmapper/Event.java:85-89 | the link loop runs `Link` for each key in order and stops at the first exception |
| GalacticMaps.GalacticMap.RemoveLinks | src/moctave/esmapper/Event.java:91-94 | the unlink loop runs `Unlink` for each key, with its partner from the link map, and stops at the first exception |
| GalacticMaps.GalacticMap.IsUninhabited | src/moctave/esmapper/StarSystem.java:243-261 | true without named objects; otherwise the planet of each named object is checked in turn, and the first one neither uninhabited nor a wormhole answers false |

## Left out

- Reading files: `Parser.parse` takes the file's lines as a sequence. `Scanner`/`File` handling and the FileNotFoundException message are not modelled.
- Config `extends` recursion: config files that name further config files are not modelled. A config parser hands top-level nodes over like any other.
- Logging: every `Logger` call (warnings, errors, timings) is dropped. The console counts printed at the end of `load` are dropped too.
- Colours: `Builder.asColor`, `Builder.resolveColor`, `Wormhole`'s colour and `getDim`, and a government's colour are not modelled. AWT colours and float channels are out of scope. A government is its name only. One behaviour is lost with them: `new Color(float…)` in `asColor` throws IllegalArgumentException for a channel outside [0, 1] (Builder.java:263-268 and 274-278), and only NumberFormatException is caught. So in Java, a `government` or `wormhole` node with such a `color` child ends `load` with an exception, while the model's `Load` carries on.
- Drawing: the drawing half of `GalacticMap` is not modelled. This covers the `size` and `center` children, the offset, `setupGraphics` and `draw*`. `DrawnItem`, `Viewport` and `Legend` are not part of this model.
- `Main`: `Main.getNodes`, `Main.getEventList` and `Main.getEvent` become parameters of `Load` and of the map constructor. `Main.incrementTNC` is the heap's `totalNodeCount`.
- Number parsing: `Integer.parseInt` and `Double.parseDouble` are the `NumberSyntax` parameter, a pair of partial functions, and their grammar is not modelled. Doubles are reals, so rounding is not modelled.
- `RectCoordinate` is an opaque pair of reals. `Sprite` is opaque, holding its node, and `Sprite.resolve` (a file search) is not modelled.
- Aliasing of entities: registries and star-system objects hold values. So a `Planet`, `StarSystem`, `Galaxy` or `Wormhole` object shared elsewhere does not see an event's changes. In the program, `load` is the only holder.
- Getters and setters with no logic beyond returning or assigning a field are not modelled. Examples are `StellarObject.setName`, `Event.setName`, the entity getters and `toString`.
- `Parser.trimComments` and `Parser.containsOnlyWhitespace` are not modelled, because `parse` does not call them.
- StarSystems.NamedScanIsExact: states the named objects as a multiset, not the breadth-first order. `StarSystem.GetAllNamedObjects` itself returns the scan in its order.
- Trades.Trade.GetMinCommodityPrice: relies on `Valid()` (every stored array is non-empty), which `AddTradeInfo` preserves. An empty array cannot be stored, because `mapDoubleArray` needs at least two arguments.
