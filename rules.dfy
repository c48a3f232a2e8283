/**
 * The data model of a generated empire and the eligibility rules of the
 * catalogs (main.go:311-373, 375-385, 614-734).
 *
 * The source builds eligibility predicates as closures over small combinators
 * (`auth`, `notAuth`, `excludeCivic`, `excludeEthic`, `includeEthic`, `and` for
 * the empire; `excludeTrait`, `includeType`, `excludeType`, `andS` for a
 * species). Here each combinator is a constructor of a first-order datatype and
 * `Allows` / `SpeciesAllows` evaluate a rule against a snapshot of the state.
 */
module Rules {

  /** A rule over the partial empire (Go type `Predicate`). */
  datatype Rule =
    | Always                             // always
    | OnlyGestalt                        // onlyGestalt: no ethic chosen yet
    | Auth(names: seq<string>)           // auth(...)
    | NotAuth(names: seq<string>)        // notAuth(...)
    | ExcludeCivic(names: seq<string>)   // excludeCivic(...)
    | ExcludeEthic(names: seq<string>)   // excludeEthic(...)
    | IncludeEthic(names: seq<string>)   // includeEthic(...)
    | And(rules: seq<Rule>)              // and(...)

  /** A rule over the species being built (Go type `speciesPredicate`). */
  datatype SpeciesRule =
    | Never                                   // never
    | ExcludeTrait(names: seq<string>)        // excludeTrait(...)
    | IncludeType(names: seq<string>)         // includeType(...)
    | ExcludeType(names: seq<string>)         // excludeType(...)
    | AndS(rules: seq<SpeciesRule>)           // andS(...)

  datatype Ethic = Ethic(name: string, allowed: Rule)
  datatype Authority = Authority(name: string, allowed: Rule)
  /** `genocidal` is carried as data only; no rule consults it. */
  datatype Civic = Civic(name: string, genocidal: bool, allowed: Rule)
  datatype Origin = Origin(name: string, allowed: Rule)
  datatype Trait = Trait(cost: int, name: string, nonGestalt: bool, allowed: SpeciesRule)

  datatype Species = Species(popType: string, initialTraitPoints: int, traits: seq<Trait>)

  datatype Empire = Empire(
    authority: string,
    civics: seq<Civic>,
    ethics: seq<Ethic>,
    origin: Origin,
    homeplanet: string,
    mainSpecies: Species,
    subSpecies: Species)

  /** The zero `Species{}`. */
  const EmptySpecies := Species("", 0, [])

  /** The zero `Origin{}`; its rule is never consulted. */
  const NoOrigin := Origin("", Always)

  /** The zero `Empire{}` every generation starts from (main.go:90). */
  const EmptyEmpire := Empire("", [], [], NoOrigin, "", EmptySpecies, EmptySpecies)

  const Gestalt := "Gestalt Consciousness"

  /** The name the ethics draft gives the fanatic form of an ethic (main.go:158). */
  function Fanatic(name: string): string
  {
    "Fanatic " + name
  }

  function CivicNames(cs: seq<Civic>): (ns: seq<string>)
    ensures |ns| == |cs| && forall i :: 0 <= i < |cs| ==> ns[i] == cs[i].name
  {
    seq(|cs|, i requires 0 <= i < |cs| => cs[i].name)
  }

  function EthicNames(es: seq<Ethic>): (ns: seq<string>)
    ensures |ns| == |es| && forall i :: 0 <= i < |es| ==> ns[i] == es[i].name
  {
    seq(|es|, i requires 0 <= i < |es| => es[i].name)
  }

  function TraitNames(ts: seq<Trait>): (ns: seq<string>)
    ensures |ns| == |ts| && forall i :: 0 <= i < |ts| ==> ns[i] == ts[i].name
  {
    seq(|ts|, i requires 0 <= i < |ts| => ts[i].name)
  }

  /** A name is among the held ethics' names exactly when some held ethic bears it. */
  lemma EthicNameHeld(es: seq<Ethic>, n: string)
    ensures n in EthicNames(es) <==> exists x :: x in es && x.name == n
  {
    if n in EthicNames(es) {
      var i :| 0 <= i < |es| && EthicNames(es)[i] == n;
      assert es[i] in es;
    }
    if exists x :: x in es && x.name == n {
      var x :| x in es && x.name == n;
      var i :| 0 <= i < |es| && es[i] == x;
      assert EthicNames(es)[i] == n;
    }
  }

  /**
   * Whether rule `p` admits the empire `e` (the closures of main.go:375-385,
   * 618-688). Each closure scans its name list for a match: `Auth` and `NotAuth`
   * test the authority against the list, `ExcludeCivic` and `ExcludeEthic` fail
   * exactly when a held name is listed, `IncludeEthic` holds exactly when one is,
   * and `And` is the conjunction of its rules.
   */
  function Allows(p: Rule, e: Empire): bool
  {
    match p
    case Always => true
    case OnlyGestalt => |e.ethics| == 0
    case Auth(ns) => e.authority in ns
    case NotAuth(ns) => e.authority !in ns
    case ExcludeCivic(ns) => forall c :: c in e.civics ==> c.name !in ns
    case ExcludeEthic(ns) => forall x :: x in e.ethics ==> x.name !in ns
    case IncludeEthic(ns) => exists x :: x in e.ethics && x.name in ns
    case And(ps) => forall q :: q in ps ==> Allows(q, e)
  }

  /**
   * Whether species rule `p` admits the species `s` (main.go:614-616,
   * 690-734). `ExcludeTrait` fails exactly when a held trait is listed,
   * `IncludeType` / `ExcludeType` test the pop type, `AndS` is a conjunction and
   * `Never` admits nothing.
   */
  function SpeciesAllows(p: SpeciesRule, s: Species): bool
  {
    match p
    case Never => false
    case ExcludeTrait(ns) => forall t :: t in s.traits ==> t.name !in ns
    case IncludeType(ns) => s.popType in ns
    case ExcludeType(ns) => s.popType !in ns
    case AndS(ps) => forall q :: q in ps ==> SpeciesAllows(q, s)
  }

  /**
   * The scan the closures of `excludeCivic`, `excludeEthic`, `includeEthic`
   * and `excludeTrait` run (main.go:640-677, 690-701): whether any held name
   * appears in the list `ns`.
   */
  function AnyListed(held: seq<string>, ns: seq<string>): bool
  {
    if held == [] then false else AnyListed(held[..|held| - 1], ns) || held[|held| - 1] in ns
  }

  /** The scan finds a listed name exactly when some held name is listed. */
  lemma {:induction false} AnyListedMeans(held: seq<string>, ns: seq<string>)
    ensures AnyListed(held, ns) <==> exists i :: 0 <= i < |held| && held[i] in ns
  {
    if held != [] {
      var n := |held| - 1;
      AnyListedMeans(held[..n], ns);
      if exists i :: 0 <= i < |held| && held[i] in ns {
        var i :| 0 <= i < |held| && held[i] in ns;
        if i < n {
          assert held[..n][i] == held[i];
        }
      }
      if exists i :: 0 <= i < n && held[..n][i] in ns {
        var i :| 0 <= i < n && held[..n][i] in ns;
        assert held[i] in ns;
      }
    }
  }

  /** The scan of `and` (main.go:679-688): every rule of the list holds. */
  function AllHold(ps: seq<Rule>, e: Empire): bool
  {
    if ps == [] then true else Allows(ps[0], e) && AllHold(ps[1..], e)
  }

  /** `excludeCivic` fails exactly when a held civic is listed; `excludeEthic` likewise for ethics. */
  lemma ExcludeScans(ns: seq<string>, e: Empire)
    ensures Allows(ExcludeCivic(ns), e) <==> !AnyListed(CivicNames(e.civics), ns)
    ensures Allows(ExcludeEthic(ns), e) <==> !AnyListed(EthicNames(e.ethics), ns)
  {
    AnyListedMeans(CivicNames(e.civics), ns);
    AnyListedMeans(EthicNames(e.ethics), ns);
    if !Allows(ExcludeCivic(ns), e) {
      var c :| c in e.civics && c.name in ns;
      var i :| 0 <= i < |e.civics| && e.civics[i] == c;
      assert CivicNames(e.civics)[i] in ns;
    }
    if !Allows(ExcludeEthic(ns), e) {
      var x :| x in e.ethics && x.name in ns;
      var i :| 0 <= i < |e.ethics| && e.ethics[i] == x;
      assert EthicNames(e.ethics)[i] in ns;
    }
  }

  /** `includeEthic` holds exactly when a held ethic is listed: the complement of `excludeEthic`. */
  lemma IncludeEthicScan(ns: seq<string>, e: Empire)
    ensures Allows(IncludeEthic(ns), e) <==> AnyListed(EthicNames(e.ethics), ns)
    ensures Allows(IncludeEthic(ns), e) <==> !Allows(ExcludeEthic(ns), e)
  {
    ExcludeScans(ns, e);
  }

  /** `excludeTrait` fails exactly when a held trait is listed. */
  lemma ExcludeTraitScan(ns: seq<string>, s: Species)
    ensures SpeciesAllows(ExcludeTrait(ns), s) <==> !AnyListed(TraitNames(s.traits), ns)
  {
    AnyListedMeans(TraitNames(s.traits), ns);
    if !SpeciesAllows(ExcludeTrait(ns), s) {
      var t :| t in s.traits && t.name in ns;
      var i :| 0 <= i < |s.traits| && s.traits[i] == t;
      assert TraitNames(s.traits)[i] in ns;
    }
  }

  /** `and` holds exactly when its scan finds no failing rule. */
  lemma {:induction false} AndScan(ps: seq<Rule>, e: Empire)
    ensures Allows(And(ps), e) <==> AllHold(ps, e)
  {
    if ps != [] {
      AndScan(ps[1..], e);
      assert ps == [ps[0]] + ps[1..];
      assert forall q :: q in ps <==> q == ps[0] || q in ps[1..];
    }
  }

  /** The scan of `andS` (main.go:725-733): every species rule of the list holds. */
  function AllHoldS(ps: seq<SpeciesRule>, s: Species): bool
  {
    if ps == [] then true else SpeciesAllows(ps[0], s) && AllHoldS(ps[1..], s)
  }

  /** `andS` holds exactly when its scan finds no failing species rule. */
  lemma {:induction false} AndSScan(ps: seq<SpeciesRule>, s: Species)
    ensures SpeciesAllows(AndS(ps), s) <==> AllHoldS(ps, s)
  {
    if ps != [] {
      AndSScan(ps[1..], s);
      assert ps == [ps[0]] + ps[1..];
      assert forall q :: q in ps <==> q == ps[0] || q in ps[1..];
    }
  }

  /**
   * `notAuth` is the negation of `auth`, `excludeType` of `includeType`;
   * `always` admits every empire and `never` no species.
   */
  lemma Complements(ns: seq<string>, e: Empire, s: Species)
    ensures Allows(NotAuth(ns), e) <==> !Allows(Auth(ns), e)
    ensures SpeciesAllows(ExcludeType(ns), s) <==> !SpeciesAllows(IncludeType(ns), s)
    ensures Allows(Always, e) && !SpeciesAllows(Never, s)
  {
  }
}
