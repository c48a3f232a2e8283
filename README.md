# Constrained random empire generation

This project models the generator in `main.go` of a Stellaris empire
generator. The generator builds an empire in a fixed order:

1. ethics;
2. a government authority;
3. two civics;
4. an origin;
5. a homeplanet;
6. a main species and, for some origins, a secondary species.

Each step filters a fixed catalog down to the entries that are still
eligible, then picks one of them with `r.Intn`. Eligibility is decided by small
rule combinators (`auth`, `excludeEthic`, `andS`, ...) attached to the catalog
entries. They test the empire or species built so far.

## How the model is built

- **Rules (`rules.dfy`).** The combinators are a first-order datatype.
  `Allows` and `SpeciesAllows` evaluate them.
- **Catalogs (`catalogs.dfy`).** The catalogs are constants, transcribed entry
  for entry.
- **Filters (`filters.dfy`).** Each eligibility filter is a loop method. It is
  proved equal to a recursive function that keeps exactly the eligible entries
  in catalog order.
- **Random numbers (`randomness.dfy`).** The global random source is an explicit
  stream `rand: nat -> nat` read at a cursor `at`. A draw of `r.Intn(n)` is
  `rand(at) % n`.
- **Results.** Each step returns a `Result` together with the advanced cursor.
  Indexing an empty list, which panics in Go, becomes an
  `EmptyEligibleSet(category)` error.
- **Steps and pipeline.** Each `choose*` step is a method. It is proved equal
  to a specification function (`sampler.dfy`, `ethics.dfy`,
  `classification.dfy`, `generator.dfy`). The lemmas about those functions
  state what the generator guarantees:
  - the ethics are consistent and have one of the three draft shapes;
  - the authority is gestalt exactly when the ethics are;
  - the civics are two distinct eligible ones;
  - the origin is eligible;
  - the species spend their trait points exactly;
  - no step of the pipeline fails before species generation.
- **Species allocator (`species.dfy`).** `fillSpecies` retries
  `singleSpeciesTry` until one attempt is accepted. In the model the retries
  are bounded by `fuel`.

## Model

| member | source | states |
|---|---|---|
| Randomness.Pick | main.go:123 | an index draw returns an element of the list, the one at the drawn position when it is in range |
| Randomness.ReduceIsMod | main.go:123 | the position a draw selects is the draw modulo the list length, as `r.Intn(len(list))` |
| Rules.EthicNameHeld | main.go:653-677 | a name is among the held ethic names exactly when some held ethic bears it |
| Rules.AnyListedMeans | main.go:640-677 | the nested scan of the exclude/include closures finds a match exactly when some held name is in the list |
| Rules.ExcludeScans | main.go:640-664 | `excludeCivic` and `excludeEthic` are false exactly when a held civic (ethic) name is listed |
| Rules.IncludeEthicScan | main.go:666-677 | `includeEthic` is true exactly when a held ethic name is listed, the complement of `excludeEthic` on the same list |
| Rules.ExcludeTraitScan | main.go:690-701 | `excludeTrait` is false exactly when a held trait name is listed |
| Rules.AndScan | main.go:679-688 | `and` holds exactly when its loop finds no failing predicate |
| Rules.AndSScan | main.go:725-734 | `andS` holds exactly when its loop finds no failing species predicate |
| Rules.Complements | main.go:614-638 | `notAuth` negates `auth` on the same names, `excludeType` negates `includeType`, `always` admits every empire and `never` no species |
| Filters.EthicsFromMembers | main.go:173-187 | an ethic is kept exactly when it is in the catalog, its rule admits the empire and neither it nor its fanatic form is held |
| Filters.EthicListMembers | main.go:173-187 | getEthicList contains exactly the eligible ethics of allEthics |
| Filters.FilterEthics | main.go:173-187 | the filtering loop returns the eligible ethics of the catalog, in catalog order |
| Filters.GetEthicList | main.go:173-187 | getEthicList over allEthics |
| Filters.CivicsFromMembers | main.go:133-147 | a civic is kept exactly when it is in the catalog, its rule admits the empire and no held civic has its name |
| Filters.CivicListMembers | main.go:133-147 | getCivicList contains exactly the eligible civics of allCivics |
| Filters.FilterCivics | main.go:133-147 | the filtering loop returns the eligible civics of the catalog, in catalog order |
| Filters.GetCivicList | main.go:133-147 | getCivicList over allCivics |
| Filters.TraitsFromMembers | main.go:294-309 | a trait is kept exactly when its rule admits the species, it is not non-gestalt for a gestalt species and no held trait has its name |
| Filters.TraitListMembers | main.go:294-309 | availableTraits contains exactly the available traits of allTraits |
| Filters.FilterTraits | main.go:294-309 | the filtering loop returns the available traits of the catalog, in catalog order |
| Filters.AvailableTraits | main.go:294-309 | availableTraits over allTraits |
| Filters.AuthoritiesFromMembers | main.go:117-122 | an authority is kept exactly when it is in the catalog and its rule admits the empire |
| Filters.AuthorityListMembers | main.go:117-122 | the authority list of chooseAuthority contains exactly the admitted authorities |
| Filters.FilterAuthorities | main.go:117-122 | the filtering loop of chooseAuthority keeps the admitted authorities in catalog order |
| Filters.OriginsFromMembers | main.go:190-195 | an origin is kept exactly when it is in the catalog and its rule admits the empire |
| Filters.OriginListMembers | main.go:190-195 | the origin list of chooseOrigin contains exactly the admitted origins |
| Filters.FilterOrigins | main.go:190-195 | the filtering loop of chooseOrigin keeps the admitted origins in catalog order |
| Ethics.EthicCatalogShape | main.go:387-399 | every catalog ethic is either "Gestalt Consciousness" with the `onlyGestalt` rule, or a regular ethic excluding its opposite, the opposite's fanatic form and the gestalt ethic |
| Ethics.FirstAxisRows | main.go:388-391 | the first four catalog rows are the first ends of the four axes with their exclusion rules |
| Ethics.SecondAxisRows | main.go:392-395 | the next four rows are the other ends of the axes with their exclusion rules |
| Ethics.TwoGestaltRows | main.go:387-399 | the catalog has ten live rows and exactly the last two are "Gestalt Consciousness" |
| Ethics.LaterDrawIsRegular | main.go:159-167 | once any ethic is held, every eligible ethic is a regular (non-gestalt) ethic |
| Ethics.CompatibleHeld | main.go:173-187 | a held ethic off the axis of a regular ethic is compatible with that ethic and with its fanatic form |
| Ethics.ConsistentAppend | main.go:157-168 | appending an ethic compatible with every held one keeps the ethics consistent |
| Ethics.AppendEligibleEthic | main.go:157-168 | appending an eligible ethic, plainly or in fanatic form, keeps the ethics consistent |
| Ethics.OffAxis | main.go:173-187 | an ethic on another axis is neither a given regular ethic nor its fanatic form |
| Ethics.FreeAxisEligible | main.go:173-187 | when no held ethic is on axis k, the first catalog ethic of that axis is eligible |
| Ethics.EthicListNonEmpty | main.go:159-167 | with at most two consistent regular ethics held, getEthicList is never empty, so the later draws never index an empty list |
| Ethics.DrawMore | main.go:158-168 | the repeated draws fail only with an empty ethic list, change only the ethics, and extend them by exactly the number of draws |
| Ethics.EthicDraftFrame | main.go:149-171 | chooseEthic changes nothing but the ethics |
| Ethics.DrawNextConsistent | main.go:159-167 | a further draw on one or two consistent regular ethics succeeds, appends a plain regular ethic and keeps consistency |
| Ethics.FirstDrawRegular | main.go:150-152 | the first draw is "Gestalt Consciousness" or a regular ethic |
| Ethics.FanaticDraft | main.go:157-161 | on heads the fanatic first ethic plus one more draw yields consistent ethics of the fanatic-plus-one shape |
| Ethics.PlainDraft | main.go:162-168 | on tails the plain first ethic plus two more draws yields consistent ethics of three plain ethics |
| Ethics.TwoPlainDraws | main.go:164-168 | two draws after one plain regular ethic succeed and give three consistent plain ethics |
| Ethics.EthicDraftSound | main.go:149-171 | on an empire without ethics chooseEthic succeeds and yields consistent ethics that are exactly the gestalt ethic alone, fanatic plus one plain, or three plain, of the length the coin decides; the gestalt ethic stands alone as first drawn, on heads the first ethic is the fanatic form of the first draw, and on tails it is the first draw itself |
| Ethics.DrawAnother | main.go:165-167 | one draw of the loop re-filters the catalog against the held ethics and appends the picked ethic |
| Ethics.DrawRemaining | main.go:164-168 | the draw loop equals the repeated-draw specification and advances the cursor by one per draw |
| Ethics.ChooseEthic | main.go:149-171 | chooseEthic equals its specification and consumes the coin, the first draw and one position per further draw |
| Sampler.ChooseAuthority | main.go:116-125 | chooseAuthority equals its specification and consumes one draw |
| Sampler.AuthorityGestalt | main.go:401-409 | an eligible authority is "Hive Mind" or "Machine Intelligence" exactly when the ethics contain "Gestalt Consciousness" |
| Sampler.HiveMindEligible | main.go:401-409 | with the gestalt ethic held, "Hive Mind" is eligible |
| Sampler.DemocraticEligible | main.go:401-409 | without the gestalt ethic or any authoritarian ethic, "Democratic" is eligible |
| Sampler.FirstAxisNames | main.go:388-392 | the authoritarian and egalitarian names and their fanatic forms reduce to the two ends of one axis |
| Sampler.NotEgalitarian | main.go:388-392 | an ethic compatible with an authoritarian ethic is not egalitarian in either form |
| Sampler.NoEgalitarianBeside | main.go:388-392 | consistent ethics holding an authoritarian ethic hold no egalitarian one |
| Sampler.DictatorialEligible | main.go:401-409 | without the gestalt ethic or any egalitarian ethic, "Dictatorial" is eligible |
| Sampler.AuthorityListNonEmpty | main.go:116-123 | on consistent ethics some authority is eligible, so chooseAuthority never indexes an empty list |
| Sampler.AuthorityChoiceSound | main.go:116-125 | on consistent ethics chooseAuthority succeeds, sets only the authority to an eligible catalog authority, and that authority is gestalt exactly when the ethics are |
| Sampler.ChooseCivic | main.go:127-131 | chooseCivic equals its specification and consumes one draw |
| Sampler.CivicChoiceAppends | main.go:127-147 | chooseCivic fails exactly when no civic is eligible; otherwise it appends one catalog civic whose rule admits the empire and whose name is not yet held, and changes nothing else |
| Sampler.CivicChoiceKeepsDistinct | main.go:127-147 | chooseCivic keeps the civic names pairwise distinct |
| Sampler.OneOfTwoFree | main.go:133-147 | two admitted civics of different names leave the civic list non-empty while at most one civic is held |
| Sampler.MachinePair | main.go:411-502 | two differently named machine civics are admitted under "Machine Intelligence" |
| Sampler.HivePair | main.go:411-502 | two differently named hive civics are admitted under "Hive Mind" |
| Sampler.CorporatePair | main.go:411-502 | two differently named corporate civics are admitted under "Corporate" |
| Sampler.RegularPair | main.go:411-502 | two differently named regular civics are admitted under the four regular authorities |
| Sampler.MachinePairListed | main.go:411-502 | those machine civics are in allCivics |
| Sampler.HivePairListed | main.go:411-502 | those hive civics are in allCivics |
| Sampler.CorporatePairListed | main.go:411-502 | those corporate civics are in allCivics |
| Sampler.RegularPairListed | main.go:411-502 | those regular civics are in allCivics |
| Sampler.AuthorityNames | main.go:401-409 | a catalog authority name is one of the seven listed |
| Sampler.CivicListNonEmpty | main.go:127-131 | under any catalog authority, with at most one civic held, the civic list is non-empty, so both chooseCivic calls succeed |
| Sampler.ChooseOrigin | main.go:189-198 | chooseOrigin equals its specification and consumes one draw |
| Sampler.OriginChoiceSound | main.go:189-198 | chooseOrigin always succeeds and sets only the origin, to a catalog origin whose rule admits the empire |
| Sampler.PlanetChoice | main.go:200-204 | the homeplanet is one of the nine planet classes and nothing else changes |
| Sampler.ChooseHomeplanet | main.go:200-204 | chooseHomeplanet equals its specification and consumes one draw |
| Allocator.TraitSteps | main.go:280-283 | the trait draws fail only with an empty trait list, change only the traits, and append exactly one trait per draw |
| Allocator.DrawnFromCons | main.go:280-283 | an available first trait followed by available traits makes an available sequence of draws |
| Allocator.TraitStepsDrawFrom | main.go:280-283 | each trait drawn is a catalog trait that was available to the species as built up to it |
| Allocator.DrawnTraitsFresh | main.go:294-309 | drawn traits never repeat a name already held, and a gestalt species never draws a non-gestalt trait |
| Allocator.AttemptSound | main.go:277-292 | an attempt fails only when a trait list is empty; otherwise it draws a count from traitCountOptions (1 to 5 traits, all available), and it is accepted exactly when the points left are 0, returning the zero species when rejected |
| Allocator.AttemptOutcome | main.go:277-292 | an accepted attempt returns a species that fillSpecies accepts |
| Allocator.FillSound | main.go:268-275 | fillSpecies returns an accepted species, or fails only with an empty trait list or exhausted fuel |
| Allocator.FillRetry | main.go:268-275 | a rejected attempt is followed by a fresh attempt on the same seeded species at the next cursor |
| Allocator.DrawTrait | main.go:281-282 | one draw appends a trait picked from availableTraits |
| Allocator.DrawTraits | main.go:280-283 | the draw loop equals its specification and consumes one position per trait |
| Allocator.Remaining | main.go:284-287 | the points-left loop computes the initial points minus the summed trait costs |
| Allocator.SingleSpeciesTry | main.go:277-292 | singleSpeciesTry equals its specification and consumes the count draw and one draw per trait |
| Allocator.FillSpecies | main.go:268-275 | the retry loop equals the fuel-bounded specification |
| Classification.NarrowedPopTypes | main.go:209-223 | the pop types left after the civic scan are never empty |
| Classification.NarrowedPopTypesCases | main.go:209-223 | the pop types are all ten, the two plant types or lithoid only; all ten without "Idyllic Bloom" and "Terravore", the plant types with only the first, lithoid with only the second |
| Classification.NarrowedWithinPopTypes | main.go:209-223 | every remaining pop type is one of the ten |
| Classification.AnglersSeedAquatic | main.go:213-217 | the traits seeded by the civic scan are all Aquatic, and Aquatic is seeded exactly when "Anglers" is held |
| Classification.FillErrors | main.go:260-263 | the main and secondary fills fail only with an empty trait list or exhausted fuel |
| Classification.SpeciesGenerationErrors | main.go:206-266 | generateSpecies fails only with an empty trait list or exhausted fuel |
| Classification.MainFillClass | main.go:213-260 | the main species is accepted; a machine has pop type "Machine" and 1 point; otherwise Calamitous Birth gives a Lithoid-seeded lithoid, Ocean Paradise an Aquatic-seeded aquatic, and any other origin a drawn pop type, its origin trait and 2 points, always after the Anglers seed |
| Classification.SubFillClass | main.go:210-263 | the secondary species is accepted, has 2 points and a remaining pop type, and starts with its seeded traits |
| Classification.SpeciesGenerationShape | main.go:206-266 | generateSpecies changes only the species: the main species is the main fill; the secondary species is filled exactly when the origin is Necrophage or Syncretic Evolution on the drawn-pop-type branch, and is otherwise left as it was |
| Classification.AnglersOceanParadiseAquaticTwice | main.go:214-237 | a non-machine Ocean Paradise empire with "Anglers" gets the Aquatic trait twice in its main species |
| Classification.OrganicExcludesMachine | main.go:535-573 | every organic trait's rule begins by excluding the "Machine" pop type |
| Classification.LaterTraitsGestaltFree | main.go:574-598 | no plantoid, lithoid or machine trait is marked non-gestalt |
| Classification.NonGestaltExcludesMachine | main.go:534-599 | every catalog trait marked non-gestalt has a rule excluding the "Machine" pop type |
| Classification.MachineAdmitsNoNonGestalt | main.go:294-309 | a catalog trait admitted for a "Machine" species is not marked non-gestalt |
| Classification.MachineSpeciesGestaltSafe | main.go:225-260 | although the gestalt flag is false under "Machine Intelligence", no trait of that empire's main species is marked non-gestalt |
| Classification.CloneSoldierCaseDead | main.go:241 | no catalog origin (main.go:504-532) is named "Clone Soldier", so that case of the switch never runs |
| Classification.ScanCivics | main.go:207-224 | the civic scan seeds Aquatic for "Anglers" into both species and narrows the pop types |
| Classification.SeedSpecies | main.go:207-259 | the seeding stage equals the main-species plan, says exactly when a secondary species is wanted and what it is seeded with |
| Classification.FillMainSpecies | main.go:207-260 | the seeding and main fill equal their specification |
| Classification.FillSubSpecies | main.go:261-263 | the secondary fill draws a pop type and equals its specification |
| Classification.GenerateSpecies | main.go:206-266 | generateSpecies equals its specification |
| Generator.LeadingSucceeds | main.go:90-92 | the ethics draft and the authority choice on the empty empire both succeed, and the draft touches only the ethics |
| Generator.LeadingEthics | main.go:90-92 | after the first two steps the ethics are consistent and of one of the three draft shapes |
| Generator.LeadingAuthority | main.go:90-92 | after the first two steps the authority is a catalog authority, gestalt exactly when the ethics are |
| Generator.LeadingFrame | main.go:90-92 | after the first two steps no civic is held and both species are empty, and the cursor has advanced by the draws used |
| Generator.CivicPairSound | main.go:93-94 | the two chooseCivic calls succeed and give two distinct catalog civics, changing nothing else |
| Generator.PlacementSound | main.go:95-96 | chooseOrigin and chooseHomeplanet succeed and set only a catalog origin and one of the nine planets |
| Generator.RestSound | main.go:93-96 | steps three to six succeed and set two distinct catalog civics, a catalog origin and a planet, using four draws |
| Generator.OutlineSound | main.go:90-96 | every step before generateSpecies succeeds and the empire is well formed: consistent ethics, a gestalt-matching catalog authority, two distinct civics, a catalog origin and a planet |
| Generator.GenerationSound | main.go:90-97 | the whole pipeline fails only in species generation; on success the empire is well formed and its main species spends its points exactly |
| Generator.ChooseLeading | main.go:90-92 | the first two steps equal their specification |
| Generator.ChooseCivics | main.go:93-94 | the two civic steps equal their specification |
| Generator.ChoosePlacement | main.go:95-96 | the origin and homeplanet steps equal their specification |
| Generator.ChooseRest | main.go:93-96 | steps three to six equal their specification |
| Generator.ChooseAll | main.go:90-96 | the steps before generateSpecies equal their specification |
| Generator.GenerateEmpire | main.go:90-97 | one empire of generateEmpire equals the pipeline specification |

## Where the code differs from its description

The model follows the code in each of these cases.

- **Gestalt ethics.** The ethics catalog has two live "Gestalt Consciousness"
  rows (main.go:397-398); line 396 is a commented-out third. So two of the ten
  catalog rows are the gestalt ethic (`Ethics.TwoGestaltRows`).
- **Gestalt flag.** The flag passed to `fillSpecies` is `authority == "Hive Mind"`
  (main.go:260, 263), so "Machine Intelligence" is not treated as gestalt
  there. The deviation has no visible effect. Every trait marked non-gestalt
  also excludes the "Machine" pop type (main.go:541, 559, 564, 573). A machine
  main species always has that pop type, and a machine empire makes no
  secondary species. Its main species therefore never holds a non-gestalt
  trait (`Classification.MachineSpeciesGestaltSafe`).
- **Clone Soldier.** The `"Clone Soldier"` case of the origin switch
  (main.go:241) never runs, because the catalog origin is named "Clone Army"
  (main.go:524) (`Classification.CloneSoldierCaseDead`).
- **Aquatic twice.** An empire with the "Anglers" civic and the "Ocean Paradise"
  origin gets the Aquatic trait twice in its main species (main.go:215, 237)
  (`Classification.AnglersOceanParadiseAquaticTwice`).

## Left out

- The web application is not modelled (main.go:16-32, 34-85), including the
  rendering and the loop that builds three empires per click. The model
  generates one empire; the three are independent runs over consecutive
  stretches of the random stream.
- The `String` methods (main.go:102-114, 323-337) are not modelled. They only
  format output.
- The time-seeded global random source (main.go:13-14) is replaced by the
  stream `rand` with an explicit cursor. No probability or uniformity claim is
  made.
- Go's panic on indexing an empty list is modelled as an `EmptyEligibleSet`
  error. The lemmas show it cannot happen before species generation.
- Allocator.FillSpecies: `fillSpecies` loops until an attempt is accepted. It
  does not terminate on a stream that never yields one. The model bounds the
  attempts by `fuel` and reports `DidNotConverge` past it.
- Rules.Allows, Rules.SpeciesAllows: each combinator is evaluated by its
  meaning, a quantifier over the held names. The Go closures scan with loops.
  The two are tied by `Rules.AnyListedMeans`, `Rules.ExcludeScans`,
  `Rules.AndScan` and their siblings.
- Generator.GenerationSound: balance is stated only for the main species. The
  secondary species' balance follows from `Classification.SubFillClass` and is
  not restated there.
- The `genocidal` flag of civics is carried as data only. No rule in the source
  reads it.
