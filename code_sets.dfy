/**
 * The code-set registry and the lookup tables the calculator derives from it once,
 * when it is built: the pressure-ulcer site map, the principal-diagnosis
 * pressure-ulcer/deep-tissue-injury union, the PSI-15 organ systems and the
 * PSI-04 strata in priority order.
 */
module CodeSets {

  /** Code-set name to the set of clinical codes it holds, as loaded. */
  type Registry = map<string, set<string>>

  /** `code_sets.get(name, set())`: an unknown name reads as the empty set. */
  function Lookup(cs: Registry, name: string): set<string>
  {
    if name in cs then cs[name] else {}
  }

  predicate StartsWith(s: string, prefix: string)
  {
    |prefix| <= |s| && s[..|prefix|] == prefix
  }

  predicate EndsWith(s: string, suffix: string)
  {
    |suffix| <= |s| && s[|s| - |suffix|..] == suffix
  }

  /** Specific-site pressure-ulcer set name to the deep-tissue-injury set name of the same site. */
  const AnatomicSiteMap: map<string, string> := map[
    "PIRELBOWD" := "DTIRELBOEXD",
    "PILELBOWD" := "DTILELBOEXD",
    "PIRUPBACKD" := "DTIRUPBACEXD",
    "PILUPBACKD" := "DTILUPBACEXD",
    "PIRLOBACKD" := "DTIRLOBACEXD",
    "PILLOBACKD" := "DTILLOBACEXD",
    "PISACRALD" := "DTISACRAEXD",
    "PIRHIPD" := "DTIRHIPEXD",
    "PILHIPD" := "DTILHIPEXD",
    "PIRBUTTD" := "DTIRBUTEXD",
    "PILBUTTD" := "DTILBUTEXD",
    "PICONTIGBBHD" := "DTICONTBBHEXD",
    "PIRANKLED" := "DTIRANKLEXD",
    "PILANKLED" := "DTILANKLEXD",
    "PIRHEELD" := "DTIRHEELEXD",
    "PILHEELD" := "DTILHEELEXD",
    "PIHEADD" := "DTIHEADEXD",
    "PIOTHERD" := "DTIOTHEREXD"
  ]

  /** Unspecified-site pressure-ulcer set names. */
  const UnspecifiedPuCodes: set<string> :=
    {"PINELBOWD", "PINBACKD", "PINHIPD", "PINBUTTD", "PINANKLED", "PINHEELD", "PIUNSPECD"}

  const AllSpecificPuCodes: set<string> := AnatomicSiteMap.Keys

  const AllDtiExCodes: set<string> := AnatomicSiteMap.Values

  /**
   * Which registry headers feed the principal-diagnosis pressure-ulcer exclusion:
   * `PI…EXD`, `DTI…EXD` or `PI…D`, with `and` binding tighter than `or`.
   */
  predicate PiExdHeader(header: string)
  {
    || (StartsWith(header, "PI") && EndsWith(header, "EXD"))
    || (StartsWith(header, "DTI") && EndsWith(header, "EXD"))
    || (StartsWith(header, "PI") && EndsWith(header, "D"))
  }

  /** The union of the codes of every registry set whose header qualifies. */
  ghost function PiExdCodes(cs: Registry): set<string>
  {
    set h, c | h in cs && PiExdHeader(h) && c in cs[h] :: c
  }

  /** One PSI-15 organ system with the names of its injury-diagnosis and repair-procedure sets. */
  datatype OrganSystem = OrganSystem(name: string, dxCodes: string, procCodes: string)

  /** The organ systems in the order the organ lookup tries them. */
  const OrganSystems: seq<OrganSystem> := [
    OrganSystem("spleen", "SPLEEN15D", "SPLEEN15P"),
    OrganSystem("adrenal", "ADRENAL15D", "ADRENAL15P"),
    OrganSystem("vessel", "VESSEL15D", "VESSEL15P"),
    OrganSystem("diaphragm", "DIAPHR15D", "DIAPHR15P"),
    OrganSystem("gastrointestinal", "GI15D", "GI15P"),
    OrganSystem("genitourinary", "GU15D", "GU15P")
  ]

  /** The union of the injury-diagnosis codes of all organ systems. */
  ghost function Psi15InjuryCodes(cs: Registry): set<string>
  {
    set k, c | 0 <= k < |OrganSystems| && c in Lookup(cs, OrganSystems[k].dxCodes) :: c
  }

  /** The five PSI-04 complication strata. */
  datatype Stratum = Shock | Sepsis | Pneumonia | GiHemorrhage | DvtPe
  {
    /** The key under which the definition catalog lists the stratum. */
    function Name(): string
    {
      match this
      case Shock => "STRATUM_SHOCK"
      case Sepsis => "STRATUM_SEPSIS"
      case Pneumonia => "STRATUM_PNEUMONIA"
      case GiHemorrhage => "STRATUM_GI_HEMORRHAGE"
      case DvtPe => "STRATUM_DVT_PE"
    }

    /** The name with `STRATUM_` removed and `_` turned into a space, as reasons print it. */
    function Label(): string
    {
      match this
      case Shock => "SHOCK"
      case Sepsis => "SEPSIS"
      case Pneumonia => "PNEUMONIA"
      case GiHemorrhage => "GI HEMORRHAGE"
      case DvtPe => "DVT PE"
    }
  }

  /** Highest priority first. */
  const StrataPriority: seq<Stratum> := [Shock, Sepsis, Pneumonia, GiHemorrhage, DvtPe]
}
