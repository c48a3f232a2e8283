/**
 * generateSpecies (main.go:206-266): how the main species, and for some
 * origins a sub-species, are seeded and classified before the allocator
 * fills them with traits.
 *
 * A scan of the civics seeds the Aquatic trait once per "Anglers" civic into
 * both species and narrows the pop types ("Idyllic Bloom" to Fungoid and
 * Plantoid, "Terravore" to Lithoid). Then, in priority order, a "Machine
 * Intelligence" authority gives a Machine species with 1 point, the origin
 * "Calamitous Birth" a Lithoid species with the Lithoid trait, the origin
 * "Ocean Paradise" an Aquatic species with the Aquatic trait, and any other
 * origin a drawn pop type with an origin trait; these last three get 2 points.
 * Only the last branch can request a sub-species, for the origins
 * "Necrophage" and "Syncretic Evolution". The non-gestalt exclusion is applied
 * when the authority is "Hive Mind".
 */
module Classification {
  import opened Randomness
  import opened Rules
  import opened Catalogs
  import opened Filters
  import opened Allocator

  /** `originTraits[name]`: the seeded trait, or the zero trait a missing key yields in the source. */
  function Seeded(name: string): Trait
  {
    if name in OriginTraits then OriginTraits[name] else Trait(0, "", false, Never)
  }

  /** The Aquatic traits the civic scan seeds: one per "Anglers" civic (main.go:214-217). */
  function AnglersSeed(cs: seq<Civic>): seq<Trait>
  {
    if cs == [] then []
    else AnglersSeed(cs[..|cs| - 1]) + (if cs[|cs| - 1].name == "Anglers" then [Seeded("Aquatic")] else [])
  }

  /** The pop types left after the civic scan (main.go:218-223): the last narrowing civic wins. */
  function NarrowedPopTypes(cs: seq<Civic>): (types: seq<string>)
    ensures types != []
  {
    if cs == [] then PopTypes
    else if cs[|cs| - 1].name == "Terravore" then ["Lithoid"]
    else if cs[|cs| - 1].name == "Idyllic Bloom" then ["Fungoid", "Plantoid"]
    else NarrowedPopTypes(cs[..|cs| - 1])
  }

  /** The trait the origin switch seeds into the main species (main.go:240-255). */
  function OriginSeed(origin: string): seq<Trait>
  {
    if origin == "Clone Soldier" then [Seeded("Clone Soldier")]
    else if origin == "Post-Apocalyptic" then [Seeded("Survivor")]
    else if origin == "Void Dwellers" then [Seeded("Void Dweller")]
    else if origin == "Necrophage" then [Seeded("Necrophage")]
    else if origin == "Subterrenean" then [Seeded("Cave Dweller")]
    else []
  }

  /** The origins whose branch of the switch requests a sub-species. */
  predicate WantsSubSpecies(origin: string)
  {
    origin == "Necrophage" || origin == "Syncretic Evolution"
  }

  /** The branch of generateSpecies that draws the pop type: no machine authority and no forcing origin. */
  predicate DrawsPopType(e: Empire)
  {
    e.authority != "Machine Intelligence" && e.origin.name != "Calamitous Birth" && e.origin.name != "Ocean Paradise"
  }

  /** The seeded main species before filling, and the position after its pop-type draw, if any. */
  function MainPlan(e: Empire, rand: Rand, at: nat): (Species, nat)
  {
    var seed := AnglersSeed(e.civics);
    if e.authority == "Machine Intelligence" then (Species("Machine", 1, seed), at)
    else if e.origin.name == "Calamitous Birth" then (Species("Lithoid", 2, seed + [Seeded("Lithoid")]), at)
    else if e.origin.name == "Ocean Paradise" then (Species("Aquatic", 2, seed + [Seeded("Aquatic")]), at)
    else (Species(Pick(NarrowedPopTypes(e.civics), rand(at)), 2, seed + OriginSeed(e.origin.name)), at + 1)
  }

  /** The traits seeded into a sub-species: the civic scan's, and "Serviles" for "Syncretic Evolution". */
  function SubSeed(e: Empire): seq<Trait>
  {
    AnglersSeed(e.civics) + (if e.origin.name == "Syncretic Evolution" then [Seeded("Serviles")] else [])
  }

  /** The seeded sub-species before filling, its pop type drawn at `at`. */
  function SubPlan(e: Empire, rand: Rand, at: nat): Species
  {
    Species(Pick(NarrowedPopTypes(e.civics), rand(at)), 2, SubSeed(e))
  }

  /** The gestalt flag generateSpecies passes to fillSpecies (main.go:260, 263). */
  predicate GestaltFlag(e: Empire)
  {
    e.authority == "Hive Mind"
  }

  /** The main species filled by fillSpecies, and the position after its last draw. */
  function MainFill(e: Empire, rand: Rand, at: nat, fuel: nat): Result<(Species, nat)>
  {
    var (main, next) := MainPlan(e, rand, at);
    Fill(AllTraits, main, GestaltFlag(e), rand, next, fuel)
  }

  /** The sub-species, its pop type drawn at `cursor`, filled by fillSpecies from `cursor + 1`. */
  function SubFill(e: Empire, rand: Rand, cursor: nat, fuel: nat): Result<(Species, nat)>
  {
    Fill(AllTraits, SubPlan(e, rand, cursor), GestaltFlag(e), rand, cursor + 1, fuel)
  }

  /**
   * What generateSpecies makes of `e` with `fuel` attempts per species: the
   * empire with its main species, and its sub-species when one is requested,
   * and the position after the last draw.
   */
  function SpeciesGeneration(e: Empire, rand: Rand, at: nat, fuel: nat): Result<(Empire, nat)>
  {
    var filled := MainFill(e, rand, at, fuel);
    if filled.Err? then Err(filled.error)
    else
      var e1 := e.(mainSpecies := filled.value.0);
      if !(DrawsPopType(e) && WantsSubSpecies(e.origin.name)) then Ok((e1, filled.value.1))
      else
        var sub := SubFill(e, rand, filled.value.1, fuel);
        if sub.Err? then Err(sub.error)
        else Ok((e1.(subSpecies := sub.value.0), sub.value.1))
  }

  /**
   * The pop types the civic scan leaves: all ten without "Idyllic Bloom" or
   * "Terravore", Fungoid and Plantoid with "Idyllic Bloom" alone, Lithoid with
   * "Terravore" alone; in every case a subset of the ten.
   */
  lemma {:induction false} NarrowedPopTypesCases(cs: seq<Civic>)
    ensures var types := NarrowedPopTypes(cs);
            types == PopTypes || types == ["Fungoid", "Plantoid"] || types == ["Lithoid"]
    ensures var names := CivicNames(cs);
            "Idyllic Bloom" !in names && "Terravore" !in names ==> NarrowedPopTypes(cs) == PopTypes
    ensures var names := CivicNames(cs);
            "Idyllic Bloom" in names && "Terravore" !in names ==> NarrowedPopTypes(cs) == ["Fungoid", "Plantoid"]
    ensures var names := CivicNames(cs);
            "Terravore" in names && "Idyllic Bloom" !in names ==> NarrowedPopTypes(cs) == ["Lithoid"]
  {
    if cs != [] {
      var n := |cs| - 1;
      NarrowedPopTypesCases(cs[..n]);
      assert CivicNames(cs) == CivicNames(cs[..n]) + [cs[n].name];
    }
  }

  /** Every pop type the civic scan leaves is one of the ten standard ones. */
  lemma NarrowedWithinPopTypes(cs: seq<Civic>, t: string)
    requires t in NarrowedPopTypes(cs)
    ensures t in PopTypes
  {
    NarrowedPopTypesCases(cs);
  }

  /** Each "Anglers" civic seeds one Aquatic trait, and nothing else is seeded by the scan. */
  lemma {:induction false} AnglersSeedAquatic(cs: seq<Civic>)
    ensures forall t :: t in AnglersSeed(cs) ==> t == Seeded("Aquatic")
    ensures "Anglers" in CivicNames(cs) <==> Seeded("Aquatic") in AnglersSeed(cs)
  {
    if cs != [] {
      var n := |cs| - 1;
      AnglersSeedAquatic(cs[..n]);
      assert CivicNames(cs) == CivicNames(cs[..n]) + [cs[n].name];
    }
  }

  /** Filling either species fails only when a trait draw finds nothing available or the fuel runs out. */
  lemma FillErrors(e: Empire, rand: Rand, at: nat, cursor: nat, fuel: nat)
    ensures var r := MainFill(e, rand, at, fuel);
            r.Err? ==> r.error == DidNotConverge || r.error == EmptyEligibleSet(TraitDraw)
    ensures var r := SubFill(e, rand, cursor, fuel);
            r.Err? ==> r.error == DidNotConverge || r.error == EmptyEligibleSet(TraitDraw)
  {
    var (main, next) := MainPlan(e, rand, at);
    FillSound(AllTraits, main, GestaltFlag(e), rand, next, fuel);
    FillSound(AllTraits, SubPlan(e, rand, cursor), GestaltFlag(e), rand, cursor + 1, fuel);
  }

  /** generateSpecies fails only when a trait draw finds nothing available or a fill runs out of fuel. */
  lemma SpeciesGenerationErrors(e: Empire, rand: Rand, at: nat, fuel: nat)
    ensures var r := SpeciesGeneration(e, rand, at, fuel);
            r.Err? ==> r.error == DidNotConverge || r.error == EmptyEligibleSet(TraitDraw)
  {
    var filled := MainFill(e, rand, at, fuel);
    if filled.Ok? {
      FillErrors(e, rand, at, filled.value.1, fuel);
    } else {
      FillErrors(e, rand, at, at, fuel);
    }
  }

  /**
   * The main species fillSpecies settles on: an accepted fill of the seeded
   * species, so its budget is used up exactly and the seeded traits lead its
   * traits; a "Machine Intelligence" authority gives a Machine species with 1
   * point, otherwise "Calamitous Birth" a Lithoid species led by the Lithoid
   * trait, "Ocean Paradise" an Aquatic species led by the Aquatic trait, and
   * any other origin a narrowed pop type led by the origin's trait, all three
   * with 2 points.
   */
  lemma MainFillClass(e: Empire, rand: Rand, at: nat, fuel: nat)
    requires MainFill(e, rand, at, fuel).Ok?
    ensures var m := MainFill(e, rand, at, fuel).value.0;
            var seed := AnglersSeed(e.civics);
            && Accepted(AllTraits, MainPlan(e, rand, at).0, m, GestaltFlag(e))
            && (e.authority == "Machine Intelligence" ==>
                  m.popType == "Machine" && m.initialTraitPoints == 1 && |seed| <= |m.traits| && m.traits[..|seed|] == seed)
            && (e.authority != "Machine Intelligence" && e.origin.name == "Calamitous Birth" ==>
                  m.popType == "Lithoid" && m.initialTraitPoints == 2
                  && |seed| < |m.traits| && m.traits[..|seed| + 1] == seed + [Seeded("Lithoid")])
            && (e.authority != "Machine Intelligence" && e.origin.name != "Calamitous Birth" && e.origin.name == "Ocean Paradise" ==>
                  m.popType == "Aquatic" && m.initialTraitPoints == 2
                  && |seed| < |m.traits| && m.traits[..|seed| + 1] == seed + [Seeded("Aquatic")])
            && (DrawsPopType(e) ==>
                  var lead := seed + OriginSeed(e.origin.name);
                  m.popType in NarrowedPopTypes(e.civics) && m.initialTraitPoints == 2
                  && |lead| <= |m.traits| && m.traits[..|lead|] == lead)
  {
    var (main, next) := MainPlan(e, rand, at);
    FillSound(AllTraits, main, GestaltFlag(e), rand, next, fuel);
  }

  /**
   * The sub-species fillSpecies settles on: an accepted fill with 2 points,
   * a narrowed pop type and the scan's seeds ("Serviles" after them for
   * "Syncretic Evolution") leading its traits.
   */
  lemma SubFillClass(e: Empire, rand: Rand, cursor: nat, fuel: nat)
    requires SubFill(e, rand, cursor, fuel).Ok?
    ensures var sub := SubFill(e, rand, cursor, fuel).value.0;
            var seed := SubSeed(e);
            && Accepted(AllTraits, SubPlan(e, rand, cursor), sub, GestaltFlag(e))
            && sub.initialTraitPoints == 2 && sub.popType in NarrowedPopTypes(e.civics)
            && |seed| <= |sub.traits| && sub.traits[..|seed|] == seed
  {
    FillSound(AllTraits, SubPlan(e, rand, cursor), GestaltFlag(e), rand, cursor + 1, fuel);
  }

  /**
   * generateSpecies sets the main species to the filled one, sets the
   * sub-species to its fill only on the pop-type branch for the origins
   * "Necrophage" and "Syncretic Evolution", and changes nothing else.
   */
  lemma SpeciesGenerationShape(e: Empire, rand: Rand, at: nat, fuel: nat)
    requires SpeciesGeneration(e, rand, at, fuel).Ok?
    ensures MainFill(e, rand, at, fuel).Ok?
    ensures var r := SpeciesGeneration(e, rand, at, fuel).value.0;
            && r == e.(mainSpecies := r.mainSpecies, subSpecies := r.subSpecies)
            && r.mainSpecies == MainFill(e, rand, at, fuel).value.0
    ensures var r := SpeciesGeneration(e, rand, at, fuel).value.0;
            var cursor := MainFill(e, rand, at, fuel).value.1;
            if DrawsPopType(e) && WantsSubSpecies(e.origin.name) then
              SubFill(e, rand, cursor, fuel).Ok? && r.subSpecies == SubFill(e, rand, cursor, fuel).value.0
            else r.subSpecies == e.subSpecies
  {
  }

  /**
   * With "Anglers" among the civics and the origin "Ocean Paradise" (and no
   * machine authority), the main species holds the Aquatic trait twice: once
   * from the civic scan and once from the origin.
   */
  lemma AnglersOceanParadiseAquaticTwice(e: Empire, rand: Rand, at: nat, fuel: nat)
    requires MainFill(e, rand, at, fuel).Ok?
    requires e.authority != "Machine Intelligence" && e.origin.name == "Ocean Paradise"
    requires "Anglers" in CivicNames(e.civics)
    ensures var m := MainFill(e, rand, at, fuel).value.0;
            exists i, j :: 0 <= i < j < |m.traits| && m.traits[i] == m.traits[j] == Seeded("Aquatic")
  {
    MainFillClass(e, rand, at, fuel);
    AnglersSeedAquatic(e.civics);
    var m := MainFill(e, rand, at, fuel).value.0;
    var seed := AnglersSeed(e.civics);
    var i :| 0 <= i < |seed| && seed[i] == Seeded("Aquatic");
    var j := |seed|;
    assert m.traits[..j + 1] == seed + [Seeded("Aquatic")];
    assert m.traits[i] == m.traits[..j + 1][i];
    assert m.traits[j] == m.traits[..j + 1][j];
  }

  /** No catalog origin is named "Clone Soldier", so that case of the origin switch never fires. */
  lemma CloneSoldierCaseDead(o: Origin)
    requires o in AllOrigins
    ensures o.name != "Clone Soldier"
  {
  }

  /** Every organic trait excludes the "Machine" pop type by its first rule (main.go:535-573). */
  lemma OrganicExcludesMachine(i: nat)
    requires i < |OrganicTraits|
    ensures OrganicTraits[i].allowed.AndS? && OrganicTraits[i].allowed.rules != []
    ensures OrganicTraits[i].allowed.rules[0] == ExcludeType(["Machine"])
  {
    if i < 10 {
    } else if i < 20 {
    } else if i < 30 {
    } else {
    }
  }

  /** No plantoid, lithoid or machine trait is marked non-gestalt (main.go:574-598). */
  lemma LaterTraitsGestaltFree(i: nat)
    requires i < |BotanicAndLithoidTraits + MachineTraits|
    ensures !(BotanicAndLithoidTraits + MachineTraits)[i].nonGestalt
  {
    if i < |BotanicAndLithoidTraits| {
      assert (BotanicAndLithoidTraits + MachineTraits)[i] == BotanicAndLithoidTraits[i];
    } else {
      var k := i - |BotanicAndLithoidTraits|;
      assert (BotanicAndLithoidTraits + MachineTraits)[i] == MachineTraits[k];
      if k < 10 {
      } else {
      }
    }
  }

  /**
   * Every trait marked non-gestalt (Conformists, Thrifty, Deviants, Decadent,
   * main.go:541, 559, 564, 573) is ruled out for the "Machine" pop type.
   */
  lemma NonGestaltExcludesMachine(t: Trait)
    requires t in AllTraits
    ensures t.nonGestalt ==> t.allowed.AndS? && ExcludeType(["Machine"]) in t.allowed.rules
  {
    var later := BotanicAndLithoidTraits + MachineTraits;
    assert AllTraits == OrganicTraits + later;
    if t in OrganicTraits {
      var i :| 0 <= i < |OrganicTraits| && OrganicTraits[i] == t;
      OrganicExcludesMachine(i);
      assert t.allowed.rules[0] in t.allowed.rules;
    } else {
      assert t in later;
      var k :| 0 <= k < |later| && later[k] == t;
      LaterTraitsGestaltFree(k);
    }
  }

  /** A catalog trait admitted for a "Machine" species is not marked non-gestalt. */
  lemma MachineAdmitsNoNonGestalt(t: Trait, s: Species)
    requires t in AllTraits && SpeciesAllows(t.allowed, s) && s.popType == "Machine"
    ensures !t.nonGestalt
  {
    NonGestaltExcludesMachine(t);
  }

  /**
   * The gestalt flag leaves "Machine Intelligence" out, yet its main species
   * never holds a trait marked non-gestalt: the Anglers seed is Aquatic, and
   * every drawn trait was admitted for the "Machine" pop type.
   */
  lemma MachineSpeciesGestaltSafe(e: Empire, rand: Rand, at: nat, fuel: nat)
    requires MainFill(e, rand, at, fuel).Ok? && e.authority == "Machine Intelligence"
    ensures var m := MainFill(e, rand, at, fuel).value.0;
            forall j :: 0 <= j < |m.traits| ==> !m.traits[j].nonGestalt
  {
    MainFillClass(e, rand, at, fuel);
    AnglersSeedAquatic(e.civics);
    var m := MainFill(e, rand, at, fuel).value.0;
    var seed := AnglersSeed(e.civics);
    assert MainPlan(e, rand, at).0.traits == seed;
    forall j | 0 <= j < |m.traits|
      ensures !m.traits[j].nonGestalt
    {
      if j < |seed| {
        assert m.traits[j] == m.traits[..|seed|][j] == seed[j];
        assert seed[j] in seed;
      } else {
        var before := m.(traits := m.traits[..j]);
        assert m.traits[j] in AllTraits && TraitEligible(m.traits[j], before, false);
        MachineAdmitsNoNonGestalt(m.traits[j], before);
      }
    }
  }

  /** The civic scan of generateSpecies (main.go:211-224). */
  method ScanCivics(civics: seq<Civic>) returns (species: Species, subspecies: Species, popTypes: seq<string>)
    ensures species == Species("", 0, AnglersSeed(civics))
    ensures subspecies == Species("", 2, AnglersSeed(civics))
    ensures popTypes == NarrowedPopTypes(civics)
  {
    species := Species("", 0, []);
    popTypes := PopTypes;
    subspecies := Species("", 2, []);
    for i := 0 to |civics|
      invariant species == Species("", 0, AnglersSeed(civics[..i]))
      invariant subspecies == Species("", 2, AnglersSeed(civics[..i]))
      invariant popTypes == NarrowedPopTypes(civics[..i])
    {
      assert civics[..i + 1][..i] == civics[..i];
      var civic := civics[i];
      if civic.name == "Anglers" {
        species := species.(traits := species.traits + [Seeded("Aquatic")]);
        subspecies := subspecies.(traits := subspecies.traits + [Seeded("Aquatic")]);
      }
      if civic.name == "Idyllic Bloom" {
        popTypes := ["Fungoid", "Plantoid"];
      }
      if civic.name == "Terravore" {
        popTypes := ["Lithoid"];
      }
    }
    assert civics[..|civics|] == civics;
  }

  /**
   * The classification of generateSpecies (main.go:225-257): the seeded main
   * species with its pop type, whether a sub-species is requested, the seeded
   * sub-species without its pop type, and the pop types it will draw from.
   */
  method SeedSpecies(e: Empire, rand: Rand, at: nat)
    returns (species: Species, subspecies: Species, generateSubSpecies: bool, popTypes: seq<string>, next: nat)
    ensures (species, next) == MainPlan(e, rand, at)
    ensures generateSubSpecies == (DrawsPopType(e) && WantsSubSpecies(e.origin.name))
    ensures generateSubSpecies ==> subspecies == Species("", 2, SubSeed(e))
    ensures popTypes == NarrowedPopTypes(e.civics)
  {
    species, subspecies, popTypes := ScanCivics(e.civics);
    generateSubSpecies := false;
    next := at;
    if e.authority == "Machine Intelligence" {
      species := species.(popType := "Machine", initialTraitPoints := 1);
    } else if e.origin.name == "Calamitous Birth" {
      species := species.(popType := "Lithoid", traits := species.traits + [Seeded("Lithoid")], initialTraitPoints := 2);
    } else if e.origin.name == "Ocean Paradise" {
      species := species.(popType := "Aquatic", traits := species.traits + [Seeded("Aquatic")], initialTraitPoints := 2);
    } else {
      var origin := e.origin.name;
      assert species.traits + [] == species.traits;
      if origin == "Clone Soldier" {
        species := species.(traits := species.traits + [Seeded("Clone Soldier")]);
      } else if origin == "Post-Apocalyptic" {
        species := species.(traits := species.traits + [Seeded("Survivor")]);
      } else if origin == "Void Dwellers" {
        species := species.(traits := species.traits + [Seeded("Void Dweller")]);
      } else if origin == "Necrophage" {
        species := species.(traits := species.traits + [Seeded("Necrophage")]);
        generateSubSpecies := true;
      } else if origin == "Subterrenean" {
        species := species.(traits := species.traits + [Seeded("Cave Dweller")]);
      } else if origin == "Syncretic Evolution" {
        generateSubSpecies := true;
        subspecies := subspecies.(traits := subspecies.traits + [Seeded("Serviles")]);
      }
      species := species.(popType := Pick(popTypes, rand(at)), initialTraitPoints := 2);
      next := at + 1;
    }
  }

  /** The first half of generateSpecies (main.go:206-260): classify, then fill the main species. */
  method FillMainSpecies(e: Empire, rand: Rand, at: nat, fuel: nat)
    returns (main: Result<(Species, nat)>, subspecies: Species, generateSubSpecies: bool, popTypes: seq<string>)
    ensures main == MainFill(e, rand, at, fuel)
    ensures generateSubSpecies == (DrawsPopType(e) && WantsSubSpecies(e.origin.name))
    ensures generateSubSpecies ==> subspecies == Species("", 2, SubSeed(e))
    ensures popTypes == NarrowedPopTypes(e.civics)
  {
    var species, next;
    species, subspecies, generateSubSpecies, popTypes, next := SeedSpecies(e, rand, at);
    var gestalt := e.authority == "Hive Mind";
    main := FillSpecies(AllTraits, species, gestalt, rand, next, fuel);
  }

  /** The second half of generateSpecies (main.go:261-265): draw the sub-species' pop type, then fill it. */
  method FillSubSpecies(e: Empire, subspecies: Species, popTypes: seq<string>, rand: Rand, cursor: nat, fuel: nat)
    returns (sub: Result<(Species, nat)>)
    requires subspecies == Species("", 2, SubSeed(e)) && popTypes == NarrowedPopTypes(e.civics)
    ensures sub == SubFill(e, rand, cursor, fuel)
  {
    var seeded := subspecies.(popType := Pick(popTypes, rand(cursor)));
    var gestalt := e.authority == "Hive Mind";
    sub := FillSpecies(AllTraits, seeded, gestalt, rand, cursor + 1, fuel);
  }

  /** generateSpecies (main.go:206-266), each fillSpecies call bounded by `fuel` attempts. */
  method GenerateSpecies(e: Empire, rand: Rand, at: nat, fuel: nat) returns (r: Result<(Empire, nat)>)
    ensures r == SpeciesGeneration(e, rand, at, fuel)
  {
    var main, subspecies, generateSubSpecies, popTypes := FillMainSpecies(e, rand, at, fuel);
    if main.Err? {
      return Err(main.error);
    }
    var empire := e.(mainSpecies := main.value.0);
    var next := main.value.1;
    if generateSubSpecies {
      var sub := FillSubSpecies(e, subspecies, popTypes, rand, next, fuel);
      if sub.Err? {
        return Err(sub.error);
      }
      empire := empire.(subSpecies := sub.value.0);
      next := sub.value.1;
    }
    return Ok((empire, next));
  }
}
