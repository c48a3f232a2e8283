/**
 * The generation pipeline of generateEmpire (main.go:87-100) for one empire:
 * starting from the zero empire, draw the ethics, the authority, two civics,
 * the origin and the homeplanet, then generate the species. Every step reads
 * the empire the previous steps built, and each takes its draws from the
 * positions after the previous step's.
 */
module Generator {
  import opened Randomness
  import opened Rules
  import opened Catalogs
  import opened Filters
  import opened Ethics
  import opened Sampler
  import opened Allocator
  import opened Classification

  /** chooseEthic then chooseAuthority on the zero empire (main.go:90-92), and the position after them. */
  function Leading(rand: Rand, at: nat): Result<(Empire, nat)>
  {
    var ethics := EthicDraft(EmptyEmpire, rand, at);
    if ethics.Err? then Err(ethics.error)
    else
      var next := at + 1 + EthicDraws(EmptyEmpire, rand, at);
      var authority := AuthorityChoice(ethics.value, rand, next);
      if authority.Err? then Err(authority.error) else Ok((authority.value, next + 1))
  }

  /** The two chooseCivic calls (main.go:93-94), drawing at `at` and `at + 1`. */
  function CivicPair(e: Empire, rand: Rand, at: nat): Result<Empire>
  {
    var first := CivicChoice(e, rand, at);
    if first.Err? then first else CivicChoice(first.value, rand, at + 1)
  }

  /** chooseOrigin then chooseHomeplanet (main.go:95-96), drawing at `at` and `at + 1`. */
  function Placement(e: Empire, rand: Rand, at: nat): Result<Empire>
  {
    var origin := OriginChoice(e, rand, at);
    if origin.Err? then origin else Ok(PlanetChoice(origin.value, rand, at + 1))
  }

  /** The steps after the authority (main.go:93-96), and the position after their last draw. */
  function Rest(e: Empire, rand: Rand, at: nat): Result<(Empire, nat)>
  {
    var civics := CivicPair(e, rand, at);
    if civics.Err? then Err(civics.error)
    else
      var placed := Placement(civics.value, rand, at + 2);
      if placed.Err? then Err(placed.error) else Ok((placed.value, at + 4))
  }

  /**
   * The empire after the five choose steps (main.go:90-96) and the position
   * after their last draw, or the first failure.
   */
  function Outline(rand: Rand, at: nat): Result<(Empire, nat)>
  {
    var leading := Leading(rand, at);
    if leading.Err? then Err(leading.error) else Rest(leading.value.0, rand, leading.value.1)
  }

  /** One empire of generateEmpire (main.go:90-97), each fillSpecies call bounded by `fuel` attempts. */
  function Generation(rand: Rand, at: nat, fuel: nat): Result<(Empire, nat)>
  {
    var outline := Outline(rand, at);
    if outline.Err? then Err(outline.error)
    else SpeciesGeneration(outline.value.0, rand, outline.value.1, fuel)
  }

  /** The empire an outline promises, before its species. */
  predicate WellFormedOutline(e: Empire)
  {
    && ConsistentEthics(e.ethics) && DraftShape(e.ethics)
    && (exists a :: a in AllAuthorities && a.name == e.authority)
    && ((e.authority == "Hive Mind" || e.authority == "Machine Intelligence") <==> Gestalt in EthicNames(e.ethics))
    && |e.civics| == 2 && DistinctCivics(e.civics)
    && e.civics[0] in AllCivics && e.civics[1] in AllCivics
    && e.origin in AllOrigins && e.homeplanet in Planets
    && e.mainSpecies == EmptySpecies && e.subSpecies == EmptySpecies
  }

  /** The ethics and authority draws succeed on the zero empire; each changes only its own field. */
  lemma LeadingSucceeds(rand: Rand, at: nat)
    ensures EthicDraft(EmptyEmpire, rand, at).Ok?
    ensures var drafted := EthicDraft(EmptyEmpire, rand, at).value;
            var next := at + 1 + EthicDraws(EmptyEmpire, rand, at);
            && AuthorityChoice(drafted, rand, next).Ok?
            && Leading(rand, at) == Ok((AuthorityChoice(drafted, rand, next).value, next + 1))
            && drafted == EmptyEmpire.(ethics := drafted.ethics)
  {
    EthicDraftSound(EmptyEmpire, rand, at);
    EthicDraftFrame(EmptyEmpire, rand, at);
    var drafted := EthicDraft(EmptyEmpire, rand, at).value;
    AuthorityChoiceSound(drafted, rand, at + 1 + EthicDraws(EmptyEmpire, rand, at));
  }

  /** The ethics drawn first on the zero empire are consistent and have their drafted shape. */
  lemma LeadingEthics(rand: Rand, at: nat)
    ensures Leading(rand, at).Ok?
    ensures var e := Leading(rand, at).value.0;
            ConsistentEthics(e.ethics) && DraftShape(e.ethics)
  {
    LeadingSucceeds(rand, at);
    EthicDraftSound(EmptyEmpire, rand, at);
  }

  /**
   * The authority drawn after the ethics is a catalog one, and a gestalt one
   * exactly when "Gestalt Consciousness" is held.
   */
  lemma LeadingAuthority(rand: Rand, at: nat)
    ensures Leading(rand, at).Ok?
    ensures var e := Leading(rand, at).value.0;
            && (exists a :: a in AllAuthorities && a.name == e.authority)
            && ((e.authority == "Hive Mind" || e.authority == "Machine Intelligence") <==> Gestalt in EthicNames(e.ethics))
  {
    LeadingSucceeds(rand, at);
    EthicDraftSound(EmptyEmpire, rand, at);
    var drafted := EthicDraft(EmptyEmpire, rand, at).value;
    var next := at + 1 + EthicDraws(EmptyEmpire, rand, at);
    assert ConsistentEthics(drafted.ethics);
    AuthorityChoiceSound(drafted, rand, next);
    var e := AuthorityChoice(drafted, rand, next).value;
    assert Leading(rand, at).value.0 == e;
    assert e.ethics == drafted.ethics;
  }

  /** The first two steps set only the ethics and the authority, and take the coin, the ethics and one more draw. */
  lemma LeadingFrame(rand: Rand, at: nat)
    ensures Leading(rand, at).Ok?
    ensures var e := Leading(rand, at).value.0;
            e.civics == [] && e.mainSpecies == EmptySpecies && e.subSpecies == EmptySpecies
    ensures Leading(rand, at).value.1 == at + 2 + EthicDraws(EmptyEmpire, rand, at)
  {
    LeadingSucceeds(rand, at);
  }

  /** Two civic draws after a catalog authority both succeed and give two distinct catalog civics. */
  lemma CivicPairSound(e: Empire, rand: Rand, at: nat)
    requires exists a :: a in AllAuthorities && a.name == e.authority
    requires e.civics == []
    ensures CivicPair(e, rand, at).Ok?
    ensures var r := CivicPair(e, rand, at).value;
            && r == e.(civics := r.civics)
            && |r.civics| == 2 && DistinctCivics(r.civics)
            && r.civics[0] in AllCivics && r.civics[1] in AllCivics
  {
    CivicListNonEmpty(e);
    CivicChoiceAppends(e, rand, at);
    CivicChoiceKeepsDistinct(e, rand, at);
    var e1 := CivicChoice(e, rand, at).value;
    CivicListNonEmpty(e1);
    CivicChoiceAppends(e1, rand, at + 1);
    CivicChoiceKeepsDistinct(e1, rand, at + 1);
    var r := CivicChoice(e1, rand, at + 1).value;
    assert r.civics[0] == r.civics[..1][0] == e1.civics[0];
  }

  /** The origin and homeplanet draws always succeed and set only those two fields, from their catalogs. */
  lemma PlacementSound(e: Empire, rand: Rand, at: nat)
    ensures Placement(e, rand, at).Ok?
    ensures var r := Placement(e, rand, at).value;
            r == e.(origin := r.origin, homeplanet := r.homeplanet) && r.origin in AllOrigins && r.homeplanet in Planets
  {
    OriginChoiceSound(e, rand, at);
  }

  /**
   * After a catalog authority, the remaining steps never fail: they add two
   * distinct catalog civics, a catalog origin and one of the nine homeplanets,
   * and change nothing else.
   */
  lemma RestSound(e: Empire, rand: Rand, at: nat)
    requires exists a :: a in AllAuthorities && a.name == e.authority
    requires e.civics == []
    ensures Rest(e, rand, at).Ok? && Rest(e, rand, at).value.1 == at + 4
    ensures var r := Rest(e, rand, at).value.0;
            && r == e.(civics := r.civics, origin := r.origin, homeplanet := r.homeplanet)
            && |r.civics| == 2 && DistinctCivics(r.civics)
            && r.civics[0] in AllCivics && r.civics[1] in AllCivics
            && r.origin in AllOrigins && r.homeplanet in Planets
  {
    CivicPairSound(e, rand, at);
    PlacementSound(CivicPair(e, rand, at).value, rand, at + 2);
  }

  /**
   * The five choose steps never fail: the ethics are consistent and have
   * their drafted shape, the authority comes from the catalog and is a
   * gestalt one exactly when "Gestalt Consciousness" is held, two distinct
   * catalog civics are held, the origin comes from the catalog and the
   * homeplanet is one of the nine; the species are still the zero species.
   */
  lemma OutlineSound(rand: Rand, at: nat)
    ensures Outline(rand, at).Ok?
    ensures WellFormedOutline(Outline(rand, at).value.0)
    ensures Outline(rand, at).value.1 == at + 6 + EthicDraws(EmptyEmpire, rand, at)
  {
    LeadingEthics(rand, at);
    LeadingAuthority(rand, at);
    LeadingFrame(rand, at);
    var e := Leading(rand, at).value.0;
    RestSound(e, rand, Leading(rand, at).value.1);
    var f := Outline(rand, at).value.0;
    var a :| a in AllAuthorities && a.name == e.authority;
    assert a in AllAuthorities && a.name == f.authority;
  }

  /**
   * A whole generation fails only when a trait draw finds nothing available
   * or a fill runs out of fuel; when it succeeds, the empire keeps everything
   * the outline promises and its main species uses its budget exactly.
   */
  lemma GenerationSound(rand: Rand, at: nat, fuel: nat)
    ensures var r := Generation(rand, at, fuel);
            r.Err? ==> r.error == DidNotConverge || r.error == EmptyEligibleSet(TraitDraw)
    ensures var r := Generation(rand, at, fuel);
            r.Ok? ==> var e := r.value.0;
              && WellFormedOutline(e.(mainSpecies := EmptySpecies, subSpecies := EmptySpecies))
              && Balance(e.mainSpecies) == 0
  {
    OutlineSound(rand, at);
    var (e, next) := Outline(rand, at).value;
    SpeciesGenerationErrors(e, rand, next, fuel);
    if SpeciesGeneration(e, rand, next, fuel).Ok? {
      SpeciesGenerationShape(e, rand, next, fuel);
      MainFillClass(e, rand, next, fuel);
      var r := SpeciesGeneration(e, rand, next, fuel).value.0;
      assert r.(mainSpecies := EmptySpecies, subSpecies := EmptySpecies) == e;
    }
  }

  /** chooseEthic then chooseAuthority on the zero empire (main.go:90-92). */
  method ChooseLeading(rand: Rand, at: nat) returns (r: Result<(Empire, nat)>)
    ensures r == Leading(rand, at)
  {
    var ethics, next := ChooseEthic(EmptyEmpire, rand, at);
    if ethics.Err? {
      return Err(ethics.error);
    }
    ghost var drafted := EthicDraft(EmptyEmpire, rand, at).value;
    assert ethics == Ok(drafted);
    assert next == at + 1 + EthicDraws(EmptyEmpire, rand, at);
    var authority;
    authority, next := ChooseAuthority(ethics.value, rand, next);
    assert authority == AuthorityChoice(drafted, rand, at + 1 + EthicDraws(EmptyEmpire, rand, at));
    if authority.Err? {
      return Err(authority.error);
    }
    return Ok((authority.value, next));
  }

  /** The two chooseCivic calls (main.go:93-94). */
  method ChooseCivics(e: Empire, rand: Rand, at: nat) returns (r: Result<Empire>)
    ensures r == CivicPair(e, rand, at)
  {
    var first, next := ChooseCivic(e, rand, at);
    if first.Err? {
      return first;
    }
    r, next := ChooseCivic(first.value, rand, next);
  }

  /** chooseOrigin then chooseHomeplanet (main.go:95-96). */
  method ChoosePlacement(e: Empire, rand: Rand, at: nat) returns (r: Result<Empire>)
    ensures r == Placement(e, rand, at)
  {
    var origin, next := ChooseOrigin(e, rand, at);
    if origin.Err? {
      return origin;
    }
    var placed;
    placed, next := ChooseHomeplanet(origin.value, rand, next);
    return Ok(placed);
  }

  /** The steps after the authority (main.go:93-96). */
  method ChooseRest(e: Empire, rand: Rand, at: nat) returns (r: Result<(Empire, nat)>)
    ensures r == Rest(e, rand, at)
  {
    var civics := ChooseCivics(e, rand, at);
    if civics.Err? {
      return Err(civics.error);
    }
    var placed := ChoosePlacement(civics.value, rand, at + 2);
    if placed.Err? {
      return Err(placed.error);
    }
    return Ok((placed.value, at + 4));
  }

  /** The five choose steps of generateEmpire (main.go:90-96). */
  method ChooseAll(rand: Rand, at: nat) returns (r: Result<(Empire, nat)>)
    ensures r == Outline(rand, at)
  {
    var leading := ChooseLeading(rand, at);
    if leading.Err? {
      return Err(leading.error);
    }
    r := ChooseRest(leading.value.0, rand, leading.value.1);
  }

  /** One empire of generateEmpire (main.go:90-97). */
  method GenerateEmpire(rand: Rand, at: nat, fuel: nat) returns (r: Result<(Empire, nat)>)
    ensures r == Generation(rand, at, fuel)
  {
    var outline := ChooseAll(rand, at);
    if outline.Err? {
      return Err(outline.error);
    }
    r := GenerateSpecies(outline.value.0, rand, outline.value.1, fuel);
  }
}
