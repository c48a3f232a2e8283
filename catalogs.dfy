/**
 * The static rule catalogs (main.go:375-612): every entry carries a name and the
 * rule that decides its eligibility against the state built so far. The catalogs
 * keep the source's order and contents, duplicates included: "Gestalt
 * Consciousness" is listed twice (a third row is commented out at main.go:396),
 * and the civic list holds "Organic Reprocessing" once for machines and once for
 * hive minds.
 */
module Catalogs {
  import opened Rules

  /** normalAuth() (main.go:379-381). */
  const NormalAuth := Auth(["Democratic", "Oligarchy", "Dictatorial", "Imperial"])

  /** allEthics (main.go:387-399). */
  const AllEthics: seq<Ethic> := [
    Ethic("Authoritarian", ExcludeEthic(["Egalitarian", "Fanatic Egalitarian", "Gestalt Consciousness"])),
    Ethic("Spiritualist", ExcludeEthic(["Materialist", "Fanatic Materialist", "Gestalt Consciousness"])),
    Ethic("Militarist", ExcludeEthic(["Pacifist", "Fanatic Pacifist", "Gestalt Consciousness"])),
    Ethic("Xenophobe", ExcludeEthic(["Xenophile", "Fanatic Xenophile", "Gestalt Consciousness"])),
    Ethic("Egalitarian", ExcludeEthic(["Authoritarian", "Fanatic Authoritarian", "Gestalt Consciousness"])),
    Ethic("Materialist", ExcludeEthic(["Spiritualist", "Fanatic Spiritualist", "Gestalt Consciousness"])),
    Ethic("Pacifist", ExcludeEthic(["Militarist", "Fanatic Militarist", "Gestalt Consciousness"])),
    Ethic("Xenophile", ExcludeEthic(["Xenophobe", "Fanatic Xenophobe", "Gestalt Consciousness"])),
    Ethic("Gestalt Consciousness", OnlyGestalt),
    Ethic("Gestalt Consciousness", OnlyGestalt)
  ]

  /** allAuthorities (main.go:401-409). */
  const AllAuthorities: seq<Authority> := [
    Authority("Democratic", ExcludeEthic(["Authoritarian", "Fanatic Authoritarian", "Gestalt Consciousness"])),
    Authority("Oligarchy", ExcludeEthic(["Fanatic Authoritarian", "Fanatic Egalitarian", "Gestalt Consciousness"])),
    Authority("Dictatorial", ExcludeEthic(["Egalitarian", "Fanatic Egalitarian", "Gestalt Consciousness"])),
    Authority("Imperial", ExcludeEthic(["Egalitarian", "Fanatic Egalitarian", "Gestalt Consciousness"])),
    Authority("Corporate", ExcludeEthic(["Fanatic Egalitarian", "Fanatic Authoritarian", "Gestalt Consciousness"])),
    Authority("Hive Mind", IncludeEthic(["Gestalt Consciousness"])),
    Authority("Machine Intelligence", IncludeEthic(["Gestalt Consciousness"]))
  ]

  /** allCivics, machine-intelligence part (main.go:412-428). */
  const MachineCivics: seq<Civic> := [
    Civic("Constructobot", false, Auth(["Machine Intelligence"])),
    Civic("Delegated Functions", false, Auth(["Machine Intelligence"])),
    Civic("Determined Exterminator", true, And([Auth(["Machine Intelligence"]), ExcludeCivic(["Driven Assimilator", "Rogue Servitor"])])),
    Civic("Driven Assimilator", true, And([Auth(["Machine Intelligence"]), ExcludeCivic(["Determined Exterminator", "Rogue Servitor"])])),
    Civic("Factory Overclocking", false, Auth(["Machine Intelligence"])),
    Civic("Introspective", false, Auth(["Machine Intelligence"])),
    Civic("Maintenance Protocols", false, Auth(["Machine Intelligence"])),
    Civic("Memorialists", false, Auth(["Machine Intelligence"])),
    Civic("OTA Updates", false, Auth(["Machine Intelligence"])),
    Civic("Organic Reprocessing", false, Auth(["Machine Intelligence"])),
    Civic("Rapid Replicator", false, Auth(["Machine Intelligence"])),
    Civic("Rockbreakers", false, Auth(["Machine Intelligence"])),
    Civic("Rogue Servitor", false, And([Auth(["Machine Intelligence"]), ExcludeCivic(["Determined Exterminator", "Driven Assimilator"])])),
    Civic("Static Research Analysis", false, Auth(["Machine Intelligence"])),
    Civic("Unitary Cohesion", false, Auth(["Machine Intelligence"])),
    Civic("Warbots", false, Auth(["Machine Intelligence"])),
    Civic("Zero-Waste Protocols", false, Auth(["Machine Intelligence"]))
  ]

  /** allCivics, hive-mind part (main.go:429-442). */
  const HiveCivics: seq<Civic> := [
    Civic("Ascetic", false, Auth(["Hive Mind"])),
    Civic("Devouring Swarm", true, And([Auth(["Hive Mind"]), ExcludeCivic(["Terravore", "Empath"])])),
    Civic("Terravore", true, And([Auth(["Hive Mind"]), ExcludeCivic(["Devouring Swarm", "Empath", "Idyllic Bloom"])])),
    Civic("Divided Attention", false, Auth(["Hive Mind"])),
    Civic("Empath", false, And([Auth(["Hive Mind"]), ExcludeCivic(["Terravore", "Devouring Swarm"])])),
    Civic("Idyllic Bloom", false, And([Auth(["Hive Mind"]), ExcludeCivic(["Terravore"])])),
    Civic("Memorialist", false, Auth(["Hive Mind"])),
    Civic("Natural Neural Network", false, Auth(["Hive Mind"])),
    Civic("One Mind", false, Auth(["Hive Mind"])),
    Civic("Organic Reprocessing", false, Auth(["Hive Mind"])),
    Civic("Pooled Knowledge", false, Auth(["Hive Mind"])),
    Civic("Strength of Legions", false, Auth(["Hive Mind"])),
    Civic("Subspace Ephase", false, Auth(["Hive Mind"])),
    Civic("Subsumed Will", false, Auth(["Hive Mind"]))
  ]

  /** allCivics, corporate part (main.go:443-460). */
  const CorporateCivics: seq<Civic> := [
    Civic("Brand Loyalty", false, Auth(["Corporate"])),
    Civic("Catalytic Recyclers", false, Auth(["Corporate"])),
    Civic("Corporate Hedonism", false, And([Auth(["Corporate"]), ExcludeCivic(["Indentured Assets"])])),
    Civic("Criminal Heritage", false, Auth(["Corporate"])),
    Civic("Franchising", false, Auth(["Corporate"])),
    Civic("Free Traders", false, Auth(["Corporate"])),
    Civic("Mastercraft Inc.", false, Auth(["Corporate"])),
    Civic("Media Conglomerate", false, Auth(["Corporate"])),
    Civic("Permanent Employment", false, And([Auth(["Corporate"]), ExcludeEthic(["Egalitarian", "Fanatic Egalitarian"])])),
    Civic("Private Prospectors", false, Auth(["Corporate"])),
    Civic("Public Relations Specialists", false, Auth(["Corporate"])),
    Civic("Ruthless Competition", false, Auth(["Corporate"])),
    Civic("Trading Posts", false, Auth(["Corporate"])),
    Civic("Corporate Death Cult", false, And([Auth(["Corporate"]), IncludeEthic(["Spiritualist", "Fanatic Spiritualist"])])),
    Civic("Gospel of the Masses", false, And([Auth(["Corporate"]), IncludeEthic(["Spiritualist", "Fanatic Spiritualist"])])),
    Civic("Indentured Assets", false, And([Auth(["Corporate"]), ExcludeCivic(["Corporate Hedonism"]), IncludeEthic(["Authoritarian", "Fanatic Authoritarian"])])),
    Civic("Naval Contractors", false, And([Auth(["Corporate"]), IncludeEthic(["Militarist", "Fanatic Militarist"])])),
    Civic("Private Military Companies", false, And([Auth(["Corporate"]), IncludeEthic(["Militarist", "Fanatic Militarist"])]))
  ]

  /** allCivics, the rest (main.go:461-501). */
  const RegularCivics: seq<Civic> := [
    Civic("Anglers", false, And([NormalAuth, ExcludeCivic(["Agrarian Idyll"])])),
    Civic("Byzantine Bureaucracy", false, And([NormalAuth, ExcludeEthic(["Spiritualist", "Fanatic Spiritualist"])])),
    Civic("Corvee System", false, And([NormalAuth, ExcludeCivic(["Free Haven"]), ExcludeEthic(["Egalitarian", "Fanatic Egalitarian"])])),
    Civic("Cutthroat Politics", false, NormalAuth),
    Civic("Diplomatic Corps", false, And([NormalAuth, ExcludeCivic(["Fanatic Purifiers", "Inward Perfection"])])),
    Civic("Efficient Bureaucracy", false, NormalAuth),
    Civic("Environmentalist", false, NormalAuth),
    Civic("Functional Architecture", false, NormalAuth),
    Civic("Masterful Crafters", false, NormalAuth),
    Civic("Memorialists", false, And([NormalAuth, ExcludeCivic(["Fanatic Purifiers"])])),
    Civic("Merchant Guilds", false, And([NormalAuth, ExcludeCivic(["Exalted Priesthood", "Aristocratic Elite", "Technocracy"])])),
    Civic("Mining Guilds", false, NormalAuth),
    Civic("Philosopher King", false, Auth(["Dictatorial", "Imperial"])),
    Civic("Pleasure Seekers", false, And([NormalAuth, ExcludeCivic(["Warrior Culture", "Shared Burdens", "Slaver Guilds"])])),
    Civic("Police State", false, And([NormalAuth, ExcludeEthic(["Fanatic Egalitarian"])])),
    Civic("Shadow Council", false, Auth(["Democratic", "Oligarchy", "Dictatorial"])),
    Civic("Aristocratic Elite", false, And([Auth(["Oligarchy", "Dictatorial"]), ExcludeCivic(["Exalted Priesthood", "Merchant Guilds", "Technocracy"]), ExcludeEthic(["Egalitarian", "Fanatic Egalitarian"])])),
    Civic("Beacon of Libery", false, And([Auth(["Democratic"]), IncludeEthic(["Egalitarian", "Fanatic Egalitarian"]), ExcludeEthic(["Xenophobe", "Fanatic Xenophobe"])])),
    Civic("Citizen Service", false, And([Auth(["Democratic", "Oligarchy"]), ExcludeCivic(["Reanimators"]), IncludeEthic(["Militarist", "Fanatic Militarist"]), ExcludeEthic(["Fanatic Xenophile"])])),
    Civic("Death Cult", false, And([NormalAuth, ExcludeCivic(["Fanatic Purifiers", "Inward Perfection"]), IncludeEthic(["Spiritualist", "Fanatic Spiritualist"])])),
    Civic("Distinquished Admiralty", false, And([NormalAuth, IncludeEthic(["Militarist", "Fanatic Militarist"])])),
    Civic("Exalted Priesthood", false, And([Auth(["Oligarchy", "Dictatorial"]), ExcludeCivic(["Aristocratic Elite", "Merchant Guilds", "Technocracy"]), IncludeEthic(["Spiritualist", "Fanatic Spiritualist"])])),
    Civic("Feudal Society", false, Auth(["Imperial"])),
    Civic("Free Haven", false, And([NormalAuth, ExcludeCivic(["Corvee System"]), IncludeEthic(["Xenophile", "Fanatic Xenophile"])])),
    Civic("Idyllic Bloom", false, NormalAuth),
    Civic("Imperial Cult", false, And([Auth(["Imperial"]), IncludeEthic(["Spiritualist", "Fanatic Spiritualist"]), IncludeEthic(["Authoritarian", "Fanatic Authoritarian"])])),
    Civic("Inward Perfection", false, And([NormalAuth, ExcludeCivic(["Pompous Purists"]), IncludeEthic(["Pacifist", "Fanatic Pacifist"]), IncludeEthic(["Xenophobe", "Fanatic Xenophobe"])])),
    Civic("Meritocracy", false, Auth(["Democratic", "Oligarchy"])),
    Civic("Nationalistic Zeal", false, And([NormalAuth, IncludeEthic(["Militarist", "Fanatic Militarist"])])),
    Civic("Parliamentary System", false, Auth(["Democratic"])),
    Civic("Pompous Purists", false, And([NormalAuth, ExcludeCivic(["Fanatic Purifiers", "Inward Perfection"]), IncludeEthic(["Xenophobe", "Fanatic Xenophobe"])])),
    Civic("Shared Burdens", false, And([NormalAuth, ExcludeCivic(["Technocracy", "Pleasure Seekers"]), IncludeEthic(["Fanatic Egalitarian"]), ExcludeEthic(["Xenophobe"])])),
    Civic("Slaver Guilds", false, And([NormalAuth, ExcludeCivic(["Pleasure Seekers"]), IncludeEthic(["Authoritarian", "Fanatic Authoritarian"])])),
    Civic("Technocracy", false, And([NormalAuth, ExcludeCivic(["Exalted Priesthood", "Merchant Guilds", "Aristocratic Elite", "Shared Burdens"]), IncludeEthic(["Materialist", "Fanatic Materialist"])])),
    Civic("Warrior Culture", false, And([NormalAuth, ExcludeCivic(["Pleasure Seekers"]), IncludeEthic(["Militarist", "Fanatic Militarist"])])),
    Civic("Idealistic Foundation", false, And([NormalAuth, IncludeEthic(["Egalitarian", "Fanatic Egalitarian"])])),
    Civic("Reanimators", false, And([NormalAuth, ExcludeCivic(["Citizen Service"]), ExcludeEthic(["Pacifist", "Fanatic Pacifist"])])),
    Civic("Agrarian Idyll", false, And([NormalAuth, ExcludeCivic(["Anglers"]), IncludeEthic(["Pacifist", "Fanatic Pacifist"])])),
    Civic("Barbaric Despoilers", false, And([NormalAuth, ExcludeCivic(["Fanatic Purifiers"]), IncludeEthic(["Militarist", "Fanatic Militarist"]), IncludeEthic(["Authoritarian", "Fanatic Authoritarian", "Xenophobe", "Fanatic Xenophobe"]), ExcludeEthic(["Xenophile", "Fanatic Xenophile"])])),
    Civic("Fanatic Purifiers", true, And([NormalAuth, ExcludeCivic(["Barbaric Despoilers", "Pompous Purists"]), IncludeEthic(["Fanatic Xenophobe"]), IncludeEthic(["Militarist", "Spiritualist"])]))
  ]

  /** allCivics (main.go:411-502), in source order. */
  const AllCivics: seq<Civic> := MachineCivics + HiveCivics + CorporateCivics + RegularCivics

  /** allOrigins (main.go:504-532). */
  const AllOrigins: seq<Origin> := [
    Origin("Prosperous Unification", Always),
    Origin("Mechanist", And([IncludeEthic(["Materialist", "Fanatic Materialist"]), ExcludeCivic(["Permanent Employment"])])),
    Origin("Syncretic Evolution", And([ExcludeEthic(["Gestalt Consciousness"]), ExcludeCivic(["Fanatic Purifiers"])])),
    Origin("Life-Seeded", And([NotAuth(["Machine Intelligence"]), ExcludeCivic(["Anglers"])])),
    Origin("Post-Apocalyptic", And([NotAuth(["Machine Intelligence"]), ExcludeCivic(["Agrarian Idyll", "Anglers"])])),
    Origin("Remnants", ExcludeCivic(["Agrarian Idyll"])),
    Origin("Shattered Ring", ExcludeCivic(["Agrarian Idyll", "Anglers"])),
    Origin("Void Dwellers", And([ExcludeEthic(["Gestalt Consciousness"]), ExcludeCivic(["Idyllic Bloom", "Agrarian Idyll", "Anglers"])])),
    Origin("Scion", And([ExcludeEthic(["Gestalt Consciousness", "Fanatic Xenophobe"]), ExcludeCivic(["Pompous Purists"])])),
    Origin("Galactic Doorstep", Always),
    Origin("Tree of Life", And([Auth(["Hive Mind"]), ExcludeCivic(["Devouring Swarm", "Terravore"])])),
    Origin("On the Shoulders of Giants", ExcludeEthic(["Gestalt Consciousness"])),
    Origin("Calamitous Birth", And([ExcludeCivic(["Catalytic Processing", "Organic Reprocessing", "Catalytic Recyclers", "Devouring Swarm", "Idyllic Bloom"]), NotAuth(["Machine Intelligence"])])),
    Origin("Resource Consolidation", And([Auth(["Machine Intelligence"]), ExcludeCivic(["Rogue Servitor", "Organic Reprocessing"])])),
    Origin("Common Ground", And([ExcludeEthic(["Gestalt Consciousness", "Xenophobe", "Fanatic Xenophobe"]), ExcludeCivic(["Barbaric Despoilers", "Fanatic Purifiers", "Inward Perfection"])])),
    Origin("Hegemon", And([ExcludeEthic(["Gestalt Consciousness", "Xenophobe", "Fanatic Xenophobe", "Egalitarian", "Fanatic Egalitarian"]), ExcludeCivic(["Fanatic Purifiers", "Inward Perfection"])])),
    Origin("Doomsday", Always),
    Origin("Lost Colony", ExcludeEthic(["Gestalt Consciousness"])),
    Origin("Necrophage", And([ExcludeEthic(["Xenophile", "Fanatic Xenophile", "Fanatic Egalitarian"]), NotAuth(["Machine Intelligence"]), ExcludeCivic(["Death Cult", "Corporate Death Cult", "Empath", "Permanent Employment"])])),
    Origin("Clone Army", And([ExcludeEthic(["Gestalt Consciousness"]), ExcludeCivic(["Permanent Employment"])])),
    Origin("Here Be Dragons", ExcludeCivic(["Fanatic Purifiers", "Devouring Swarm", "Terravore", "Determined Exterminator"])),
    Origin("Ocean Paradise", NotAuth(["Machine Intelligence"])),
    Origin("Progenitor Hive", Auth(["Hive Mind"])),
    Origin("Subterrenean", And([NotAuth(["Machine Intelligence"]), ExcludeCivic(["Anglers"])])),
    Origin("Slingshot to the Stars", Always),
    Origin("Teachers of the Shroud", And([IncludeEthic(["Spiritualist", "Fanatic Spiritualist"]), ExcludeCivic(["Fanatic Purifiers"])])),
    Origin("Imperial Fiefdom", ExcludeCivic(["Inward Perfection", "Fanatic Purifiers", "Devouring Swarm", "Terravore", "Driven Assimilator", "Determined Exterminator"]))
  ]

  /** allTraits, traits of every non-machine species (main.go:535-573). */
  const OrganicTraits: seq<Trait> := [
    Trait(2, "Adaptive", false, AndS([ExcludeType(["Machine"]), ExcludeTrait(["Extremely Adaptive", "Nonadaptive", "Lithoid"])])),
    Trait(4, "Extremely Adaptive", false, AndS([ExcludeType(["Machine"]), ExcludeTrait(["Adaptive", "Nonadaptive", "Lithoid"])])),
    Trait(2, "Agrarian", false, AndS([ExcludeType(["Machine"]), ExcludeTrait(["Lithoid"])])),
    Trait(1, "Aquatic", false, AndS([ExcludeType(["Machine"]), ExcludeTrait(["Cave Dweller"])])),
    Trait(2, "Charismatic", false, AndS([ExcludeType(["Machine"]), ExcludeTrait(["Repugnant"])])),
    Trait(1, "Communal", false, AndS([ExcludeType(["Machine"]), ExcludeTrait(["Solitary"])])),
    Trait(2, "Conformists", true, AndS([ExcludeType(["Machine"]), ExcludeTrait(["Deviants"])])),
    Trait(1, "Conservationist", false, AndS([ExcludeType(["Machine"]), ExcludeTrait(["Wasteful"])])),
    Trait(2, "Docile", false, AndS([ExcludeType(["Machine"]), ExcludeTrait(["Unruly"])])),
    Trait(1, "Enduring", false, AndS([ExcludeType(["Machine"]), ExcludeTrait(["Fleeting", "Venerable"])])),
    Trait(4, "Venerable", false, AndS([ExcludeType(["Machine"]), ExcludeTrait(["Fleeting", "Enduring"])])),
    Trait(2, "Industrious", false, AndS([ExcludeType(["Machine"])])),
    Trait(2, "Ingenious", false, AndS([ExcludeType(["Machine"])])),
    Trait(2, "Intelligent", false, AndS([ExcludeType(["Machine"]), ExcludeTrait(["Serviles"])])),
    Trait(1, "Natural Engineers", false, AndS([ExcludeType(["Machine"]), ExcludeTrait(["Natural Physicists", "Natural Sociologists", "Serviles"])])),
    Trait(1, "Natural Physicists", false, AndS([ExcludeType(["Machine"]), ExcludeTrait(["Natural Engineers", "Natural Sociologists", "Serviles"])])),
    Trait(1, "Natural Sociologists", false, AndS([ExcludeType(["Machine"]), ExcludeTrait(["Natural Engineers", "Natural Physicists", "Serviles"])])),
    Trait(1, "Nomadic", false, AndS([ExcludeType(["Machine"]), ExcludeTrait(["Sedentary"])])),
    Trait(1, "Quick Learners", false, AndS([ExcludeType(["Machine"]), ExcludeTrait(["Slow Learners"])])),
    Trait(2, "Rapid Breeders", false, AndS([ExcludeType(["Machine"]), ExcludeTrait(["Slow Breeders", "Clone Soldier", "Lithoid"])])),
    Trait(1, "Resilient", false, AndS([ExcludeType(["Machine"])])),
    Trait(1, "Strong", false, AndS([ExcludeType(["Machine"]), ExcludeTrait(["Very Strong", "Weak"])])),
    Trait(3, "Very Strong", false, AndS([ExcludeType(["Machine"]), ExcludeTrait(["Strong", "Weak"])])),
    Trait(1, "Talented", false, AndS([ExcludeType(["Machine"])])),
    Trait(2, "Thrifty", true, AndS([ExcludeType(["Machine"])])),
    Trait(1, "Traditional", false, AndS([ExcludeType(["Machine"]), ExcludeTrait(["Quarrelsome"])])),
    Trait(-2, "Nonadaptive", false, AndS([ExcludeType(["Machine"]), ExcludeTrait(["Adaptive", "Extremely Adaptive", "Lithoid"])])),
    Trait(-2, "Repugnant", false, AndS([ExcludeType(["Machine"]), ExcludeTrait(["Charismatic"])])),
    Trait(-1, "Solitary", false, AndS([ExcludeType(["Machine"]), ExcludeTrait(["Communal"])])),
    Trait(-1, "Deviants", true, AndS([ExcludeType(["Machine"]), ExcludeTrait(["Conformists"])])),
    Trait(-1, "Wasteful", false, AndS([ExcludeType(["Machine"]), ExcludeTrait(["Conservationist"])])),
    Trait(-2, "Unruly", false, AndS([ExcludeType(["Machine"]), ExcludeTrait(["Docile"])])),
    Trait(-1, "Fleeting", false, AndS([ExcludeType(["Machine"]), ExcludeTrait(["Enduring", "Venerable"])])),
    Trait(-1, "Sedentary", false, AndS([ExcludeType(["Machine"]), ExcludeTrait(["Nomadic"])])),
    Trait(-1, "Slow Learners", false, AndS([ExcludeType(["Machine"]), ExcludeTrait(["Quick Learners"])])),
    Trait(-2, "Slow Breeders", false, AndS([ExcludeType(["Machine"]), ExcludeTrait(["Rapid Breeders", "Lithoid", "Clone Soldier"])])),
    Trait(-1, "Weak", false, AndS([ExcludeType(["Machine"]), ExcludeTrait(["Strong", "Very Strong"])])),
    Trait(-1, "Quarrelsome", false, AndS([ExcludeType(["Machine"]), ExcludeTrait(["Traditional"])])),
    Trait(-1, "Decadent", true, AndS([ExcludeType(["Machine"])]))
  ]

  /** allTraits, plantoid/fungoid and lithoid traits (main.go:574-579). */
  const BotanicAndLithoidTraits: seq<Trait> := [
    Trait(1, "Phototropic", false, AndS([IncludeType(["Plantoid", "Fungoid"]), ExcludeTrait(["Radiotropic", "Cave Dweller"])])),
    Trait(2, "Radiotropic", false, AndS([IncludeType(["Plantoid", "Fungoid"]), ExcludeTrait(["Phototropic"])])),
    Trait(2, "Budding", false, AndS([IncludeType(["Plantoid", "Fungoid"]), ExcludeTrait(["Slow Breeders", "Rapid Breeders", "Clone Soldier", "Necrophage"])])),
    Trait(2, "Gaseous Byproducts", false, AndS([IncludeType(["Lithoid"]), ExcludeTrait(["Scintillating Skin", "Volatile Excretions"])])),
    Trait(2, "Scintillating Skin", false, AndS([IncludeType(["Lithoid"]), ExcludeTrait(["Gaseous Byproducts", "Volatile Excretions"])])),
    Trait(2, "Volatile Excretions", false, AndS([IncludeType(["Lithoid"]), ExcludeTrait(["Gaseous Byproducts", "Scintillating Skin"])]))
  ]

  /** allTraits, machine traits (main.go:580-598). */
  const MachineTraits: seq<Trait> := [
    Trait(1, "Double Jointed", false, AndS([IncludeType(["Machine"]), ExcludeTrait(["Bulky"])])),
    Trait(1, "Durable", false, AndS([IncludeType(["Machine"]), ExcludeTrait(["High Maintenance"])])),
    Trait(3, "Efficient Processors", false, AndS([IncludeType(["Machine"])])),
    Trait(1, "Emotion Emulators", false, AndS([IncludeType(["Machine"]), ExcludeTrait(["Uncanny"])])),
    Trait(2, "Enhanced Memory", false, AndS([IncludeType(["Machine"])])),
    Trait(2, "Logic Engines", false, AndS([IncludeType(["Machine"])])),
    Trait(1, "Mass-Produced", false, AndS([IncludeType(["Machine"]), ExcludeTrait(["Custom-Made"])])),
    Trait(2, "Power Drills", false, AndS([IncludeType(["Machine"])])),
    Trait(2, "Recycled", false, AndS([IncludeType(["Machine"]), ExcludeTrait(["Luxurious"])])),
    Trait(2, "Streamlined Protocols", false, AndS([IncludeType(["Machine"]), ExcludeTrait(["High Bandwidth"])])),
    Trait(2, "Superconducive", false, AndS([IncludeType(["Machine"])])),
    Trait(-1, "Bulky", false, AndS([IncludeType(["Machine"]), ExcludeTrait(["Double Jointed"])])),
    Trait(-1, "High Maintenance", false, AndS([IncludeType(["Machine"]), ExcludeTrait(["Durable"])])),
    Trait(-1, "Uncanny", false, AndS([IncludeType(["Machine"]), ExcludeTrait(["Emotion Emulators"])])),
    Trait(-1, "Custom-Made", false, AndS([IncludeType(["Machine"]), ExcludeTrait(["Mass-Produced"])])),
    Trait(-2, "Luxurious", false, AndS([IncludeType(["Machine"]), ExcludeTrait(["Recycled"])])),
    Trait(-2, "High Bandwidth", false, AndS([IncludeType(["Machine"]), ExcludeTrait(["Streamlined Protocols"])])),
    Trait(1, "Learning Algorithms", false, AndS([IncludeType(["Machine"]), ExcludeTrait(["Repurposed Hardware"])])),
    Trait(-1, "Repurposed Hardware", false, AndS([IncludeType(["Machine"]), ExcludeTrait(["Learning Algorithms"])]))
  ]

  /** allTraits (main.go:534-599), in source order. */
  const AllTraits: seq<Trait> := OrganicTraits + BotanicAndLithoidTraits + MachineTraits

  /** originTraits (main.go:601-612): traits an origin or civic seeds into a species. */
  const OriginTraits: map<string, Trait> := map[
    "Lithoid" := Trait(0, "Lithoid", false, Never),
    "Serviles" := Trait(1, "Serviles", false, Never),
    "Clone Soldier" := Trait(0, "Clone Soldier", false, Never),
    "Survivor" := Trait(0, "Survivor", false, Never),
    "Void Dweller" := Trait(0, "Void Dweller", false, Never),
    "Necrophage" := Trait(0, "Necrophage", false, Never),
    "Cave Dweller" := Trait(0, "Cave Dweller", false, Never),
    "Aquatic" := Trait(1, "Aquatic", false, AndS([ExcludeType(["Machine"]), ExcludeTrait(["Cave Dweller"])]))
  ]

  /** The homeworld climates of chooseHomeplanet (main.go:201). */
  const Planets: seq<string> := ["Desert", "Arid", "Savanna", "Ocean", "Continental", "Tropical", "Arctic", "Alpine", "Tundra"]

  /** The standard pop types of generateSpecies (main.go:209). */
  const PopTypes: seq<string> := ["Aquatic", "Mammalian", "Reptilian", "Avian", "Arthropoid", "Molluscoid", "Fungoid", "Plantoid", "Lithoid", "Necroid"]

  /** traitCountOptions (main.go:278): how many traits one attempt draws. */
  const TraitCountOptions: seq<nat> := [1, 2, 3, 3, 4, 4, 5, 5, 5]
}
