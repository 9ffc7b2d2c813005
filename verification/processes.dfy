/** The table of feature.py:253-338 that types the geologic process of
    the loop3d profile by its event process. */
module Processes {
  import opened Py
  import opened Rdf

  /** The event processes the table has an entry for, by their local
      names in the event-process namespace `Ep`. */
  datatype EventProcess =
    | Accretion
    | BiologicalPrecipitation
    | BiologicalWeathering
    | ChemicalPrecipitation
    | ChemicalWeathering
    | ContactMetamorphism
    | ContinentalBreakup
    | ContinentalCollision
    | DebrisFlowDeposition
    | DeepWaterOxygenDepletion
    | DeformationTwinning
    | Deposition
    | DiageneticProcess
    | DiffusionCreep
    | DislocationMetamorphism
    | Dissolution
    | DissolutionCreep
    | DuctileFlow
    | EffusiveEruption
    | Erosion
    | Eruption
    | Excavation
    | Faulting
    | Folding
    | Fracturing
    | FrostShattering
    | GeomagneticProcess
    | Grading
    | Haloclasty
    | HawaiianEruption
    | HumanActivity
    | Hydration
    | Hydrolysis
    | IceErosion
    | Intrusion
    | MagmaticCrystallisation
    | MagmaticProcess
    | MassWasting
    | MassWastingDeposition
    | MechanicalDeposition
    | Melting
    | MetamorphicProcess
    | Microfracturing
    | Obduction
    | OrganicAccumulation
    | Oxidation
    | PartialMelting
    | PhysicalWeathering
    | PlinianEruption
    | PolarWander
    | PressureReleaseWeathering
    | PyroclasticEruption
    | Rifting
    | SeaLevelChange
    | SedimentaryProcess
    | Shearing
    | Spreading
    | StrombolianEruption
    | Subduction
    | TectonicProcess
    | ThermalShockWeathering
    | TractionSaltationOrSuspensionDeposition
    | TransformFaulting
    | TurbidityCurrentDeposition
    | VulcanianEruption
    | WaterErosion
    | Weathering
    | WindErosion

  /** The event process with local name `local`, if the table has an entry
      for it; entries the source leaves commented out are absent. */
  function EventProcessOf(local: string): Option<EventProcess> {
    match local
    case "accretion" => Some(EventProcess.Accretion)
    case "biological_precipitation" => Some(EventProcess.BiologicalPrecipitation)
    case "biological_weathering" => Some(EventProcess.BiologicalWeathering)
    case "chemical_precipitation" => Some(EventProcess.ChemicalPrecipitation)
    case "chemical_weathering" => Some(EventProcess.ChemicalWeathering)
    case "contact_metamorphism" => Some(EventProcess.ContactMetamorphism)
    case "continental_breakup" => Some(EventProcess.ContinentalBreakup)
    case "continental_collision" => Some(EventProcess.ContinentalCollision)
    case "debris_flow_deposition" => Some(EventProcess.DebrisFlowDeposition)
    case "deep_water_oxygen_depletion" => Some(EventProcess.DeepWaterOxygenDepletion)
    case "deformation_twinning" => Some(EventProcess.DeformationTwinning)
    case "deposition" => Some(EventProcess.Deposition)
    case "diagenetic_process" => Some(EventProcess.DiageneticProcess)
    case "diffusion_creep" => Some(EventProcess.DiffusionCreep)
    case "dislocation_metamorphism" => Some(EventProcess.DislocationMetamorphism)
    case "dissolution" => Some(EventProcess.Dissolution)
    case "dissolution_creep" => Some(EventProcess.DissolutionCreep)
    case "ductile_flow" => Some(EventProcess.DuctileFlow)
    case "effusive_eruption" => Some(EventProcess.EffusiveEruption)
    case "erosion" => Some(EventProcess.Erosion)
    case "eruption" => Some(EventProcess.Eruption)
    case "excavation" => Some(EventProcess.Excavation)
    case "faulting" => Some(EventProcess.Faulting)
    case "folding" => Some(EventProcess.Folding)
    case "fracturing" => Some(EventProcess.Fracturing)
    case "frost_shattering" => Some(EventProcess.FrostShattering)
    case "geomagnetic_process" => Some(EventProcess.GeomagneticProcess)
    case "grading" => Some(EventProcess.Grading)
    case "haloclasty" => Some(EventProcess.Haloclasty)
    case "hawaiian_eruption" => Some(EventProcess.HawaiianEruption)
    case "human_activity" => Some(HumanActivity)
    case "hydration" => Some(EventProcess.Hydration)
    case "hydrolysis" => Some(EventProcess.Hydrolysis)
    case "ice_erosion" => Some(EventProcess.IceErosion)
    case "intrusion" => Some(Intrusion)
    case "magmatic_crystallisation" => Some(MagmaticCrystallisation)
    case "magmatic_process" => Some(EventProcess.MagmaticProcess)
    case "mass_wasting" => Some(EventProcess.MassWasting)
    case "mass_wasting_deposition" => Some(EventProcess.MassWastingDeposition)
    case "mechanical_deposition" => Some(EventProcess.MechanicalDeposition)
    case "melting" => Some(EventProcess.Melting)
    case "metamorphic_process" => Some(EventProcess.MetamorphicProcess)
    case "microfracturing" => Some(EventProcess.Microfracturing)
    case "obduction" => Some(EventProcess.Obduction)
    case "organic_accumulation" => Some(EventProcess.OrganicAccumulation)
    case "oxidation" => Some(EventProcess.Oxidation)
    case "partial_melting" => Some(EventProcess.PartialMelting)
    case "physical_weathering" => Some(EventProcess.PhysicalWeathering)
    case "plinian_eruption" => Some(EventProcess.PlinianEruption)
    case "polar_wander" => Some(EventProcess.PolarWander)
    case "pressure_release_weathering" => Some(EventProcess.PressureReleaseWeathering)
    case "pyroclastic_eruption" => Some(EventProcess.PyroclasticEruption)
    case "rifting" => Some(EventProcess.Rifting)
    case "sea_level_change" => Some(SeaLevelChange)
    case "sedimentary_process" => Some(EventProcess.SedimentaryProcess)
    case "shearing" => Some(EventProcess.Shearing)
    case "spreading" => Some(EventProcess.Spreading)
    case "strombolian_eruption" => Some(EventProcess.StrombolianEruption)
    case "subduction" => Some(EventProcess.Subduction)
    case "tectonic_process" => Some(EventProcess.TectonicProcess)
    case "thermal_shock_weathering" => Some(EventProcess.ThermalShockWeathering)
    case "traction_saltation_or_suspension_deposition" => Some(TractionSaltationOrSuspensionDeposition)
    case "transform_faulting" => Some(EventProcess.TransformFaulting)
    case "turbidity_current_deposition" => Some(EventProcess.TurbidityCurrentDeposition)
    case "vulcanian_eruption" => Some(EventProcess.VulcanianEruption)
    case "water_erosion" => Some(EventProcess.WaterErosion)
    case "weathering" => Some(EventProcess.Weathering)
    case "wind_erosion" => Some(EventProcess.WindErosion)
    case _ => None
  }

  /** The GSO geologic-process classes the table names, whether an entry
      maps to them or the source leaves their entries commented out. */
  datatype ProcessClass =
    | Accretion
    | BiologicalPrecipitation
    | BiologicalWeathering
    | ChemicalPrecipitation
    | ChemicalWeathering
    | ContactMetamorphism
    | ContinentalBreakup
    | ContinentalCollision
    | DebrisFlowDeposition
    | DeepWaterOxygenDepletion
    | DeformationTwinning
    | Deposition
    | DepositionHiatus
    | DiageneticProcess
    | DiffusionCreep
    | DislocationMetamorphism
    | Dissolution
    | DissolutionCreep
    | DuctileFlattening
    | DuctileFlow
    | DuctileSimpleShear
    | EffusiveEruption
    | Erosion
    | Eruption
    | Excavation
    | Faulting
    | FlexuralSlip
    | Folding
    | Fracturing
    | FrostShattering
    | GeodynamoProcess
    | GeomagneticProcess
    | Grading
    | Haloclasty
    | HawaiianEruption
    | HumanDeposition
    | Hydration
    | Hydrolysis
    | IceErosion
    | IntrusionProcess
    | LavaFlow
    | MagmaticCystallisation
    | MagmaticProcess
    | MassWasting
    | MassWastingDeposition
    | MechanicalDeposition
    | Melting
    | MetamorphicProcess
    | Metasomatism
    | Microfracturing
    | MountainBuilding
    | Obduction
    | OrganicAccumulation
    | Oxidation
    | PartialMelting
    | PhysicalWeathering
    | PlinianEruption
    | PolarWander
    | PressureReleaseWeathering
    | PyroclasticEruption
    | Pyrometamorphism
    | RegionalMetamorphism
    | Rifting
    | SeaLevelFluctuation
    | SedimentaryProcess
    | Shearing
    | Spreading
    | StrombolianEruption
    | SubaerialExtrusion
    | SubaqueousExtrusion
    | Subduction
    | TectonicProcess
    | ThermalShockWeathering
    | TractionSaltationorSuspensionDeposition
    | TransformFaulting
    | TurbidityCurrentDeposition
    | VulcanianEruption
    | WaterErosion
    | Weathering
    | WindErosion

  /** A class's local name in the GSO geologic-process namespace `Gspr`. */
  function ClassName(c: ProcessClass): string {
    match c
    case Accretion => "Accretion"
    case BiologicalPrecipitation => "Biological_Precipitation"
    case BiologicalWeathering => "Biological_Weathering"
    case ChemicalPrecipitation => "Chemical_Precipitation"
    case ChemicalWeathering => "Chemical_Weathering"
    case ContactMetamorphism => "Contact_Metamorphism"
    case ContinentalBreakup => "Continental_Breakup"
    case ContinentalCollision => "Continental_Collision"
    case DebrisFlowDeposition => "Debris_Flow_Deposition"
    case DeepWaterOxygenDepletion => "Deep_Water_Oxygen_Depletion"
    case DeformationTwinning => "Deformation_Twinning"
    case Deposition => "Deposition"
    case DepositionHiatus => "Deposition_Hiatus"
    case DiageneticProcess => "Diagenetic_Process"
    case DiffusionCreep => "Diffusion_Creep"
    case DislocationMetamorphism => "Dislocation_Metamorphism"
    case Dissolution => "Dissolution"
    case DissolutionCreep => "Dissolution_Creep"
    case DuctileFlattening => "Ductile_Flattening"
    case DuctileFlow => "Ductile_Flow"
    case DuctileSimpleShear => "Ductile_Simple_Shear"
    case EffusiveEruption => "Effusive_Eruption"
    case Erosion => "Erosion"
    case Eruption => "Eruption"
    case Excavation => "Excavation"
    case Faulting => "Faulting"
    case FlexuralSlip => "Flexural_Slip"
    case Folding => "Folding"
    case Fracturing => "Fracturing"
    case FrostShattering => "Frost_Shattering"
    case GeodynamoProcess => "Geodynamo_Process"
    case GeomagneticProcess => "Geomagnetic_Process"
    case Grading => "Grading"
    case Haloclasty => "Haloclasty"
    case HawaiianEruption => "Hawaiian_Eruption"
    case HumanDeposition => "Human_Deposition"
    case Hydration => "Hydration"
    case Hydrolysis => "Hydrolysis"
    case IceErosion => "Ice_Erosion"
    case IntrusionProcess => "Intrusion_Process"
    case LavaFlow => "Lava_Flow"
    case MagmaticCystallisation => "Magmatic_Cystallisation"
    case MagmaticProcess => "Magmatic_Process"
    case MassWasting => "Mass_Wasting"
    case MassWastingDeposition => "Mass_Wasting_Deposition"
    case MechanicalDeposition => "Mechanical_Deposition"
    case Melting => "Melting"
    case MetamorphicProcess => "Metamorphic_Process"
    case Metasomatism => "Metasomatism"
    case Microfracturing => "Microfracturing"
    case MountainBuilding => "Mountain_Building"
    case Obduction => "Obduction"
    case OrganicAccumulation => "Organic_Accumulation"
    case Oxidation => "Oxidation"
    case PartialMelting => "Partial_Melting"
    case PhysicalWeathering => "Physical_Weathering"
    case PlinianEruption => "Plinian_Eruption"
    case PolarWander => "Polar_Wander"
    case PressureReleaseWeathering => "Pressure_Release_Weathering"
    case PyroclasticEruption => "Pyroclastic_Eruption"
    case Pyrometamorphism => "Pyrometamorphism"
    case RegionalMetamorphism => "Regional_Metamorphism"
    case Rifting => "Rifting"
    case SeaLevelFluctuation => "Sea_Level_Fluctuation"
    case SedimentaryProcess => "Sedimentary_Process"
    case Shearing => "Shearing"
    case Spreading => "Spreading"
    case StrombolianEruption => "Strombolian_Eruption"
    case SubaerialExtrusion => "Subaerial_Extrusion"
    case SubaqueousExtrusion => "Subaqueous_Extrusion"
    case Subduction => "Subduction"
    case TectonicProcess => "Tectonic_Process"
    case ThermalShockWeathering => "Thermal_Shock_Weathering"
    case TractionSaltationorSuspensionDeposition => "Traction_Saltation_or_Suspension_Deposition"
    case TransformFaulting => "Transform_Faulting"
    case TurbidityCurrentDeposition => "Turbidity_Current_Deposition"
    case VulcanianEruption => "Vulcanian_Eruption"
    case WaterErosion => "Water_Erosion"
    case Weathering => "Weathering"
    case WindErosion => "Wind_Erosion"
  }

  /** The table itself, entry by entry as the source's dictionary lists it. */
  function ProcessClassOf(e: EventProcess): ProcessClass {
    match e
    case Accretion => ProcessClass.Accretion
    case BiologicalPrecipitation => ProcessClass.BiologicalPrecipitation
    case BiologicalWeathering => ProcessClass.BiologicalWeathering
    case ChemicalPrecipitation => ProcessClass.ChemicalPrecipitation
    case ChemicalWeathering => ProcessClass.ChemicalWeathering
    case ContactMetamorphism => ProcessClass.ContactMetamorphism
    case ContinentalBreakup => ProcessClass.ContinentalBreakup
    case ContinentalCollision => ProcessClass.ContinentalCollision
    case DebrisFlowDeposition => ProcessClass.DebrisFlowDeposition
    case DeepWaterOxygenDepletion => ProcessClass.DeepWaterOxygenDepletion
    case DeformationTwinning => ProcessClass.DeformationTwinning
    case Deposition => ProcessClass.Deposition
    case DiageneticProcess => ProcessClass.DiageneticProcess
    case DiffusionCreep => ProcessClass.DiffusionCreep
    case DislocationMetamorphism => ProcessClass.DislocationMetamorphism
    case Dissolution => ProcessClass.Dissolution
    case DissolutionCreep => ProcessClass.DissolutionCreep
    case DuctileFlow => ProcessClass.DuctileFlow
    case EffusiveEruption => ProcessClass.EffusiveEruption
    case Erosion => ProcessClass.Erosion
    case Eruption => ProcessClass.Eruption
    case Excavation => ProcessClass.Excavation
    case Faulting => ProcessClass.Faulting
    case Folding => ProcessClass.Folding
    case Fracturing => ProcessClass.Fracturing
    case FrostShattering => ProcessClass.FrostShattering
    case GeomagneticProcess => ProcessClass.GeomagneticProcess
    case Grading => ProcessClass.Grading
    case Haloclasty => ProcessClass.Haloclasty
    case HawaiianEruption => ProcessClass.HawaiianEruption
    case HumanActivity => HumanDeposition  // not exact
    case Hydration => ProcessClass.Hydration
    case Hydrolysis => ProcessClass.Hydrolysis
    case IceErosion => ProcessClass.IceErosion
    case Intrusion => IntrusionProcess  // not exact
    case MagmaticCrystallisation => MagmaticCystallisation
    case MagmaticProcess => ProcessClass.MagmaticProcess
    case MassWasting => ProcessClass.MassWasting
    case MassWastingDeposition => ProcessClass.MassWastingDeposition
    case MechanicalDeposition => ProcessClass.MechanicalDeposition
    case Melting => ProcessClass.Melting
    case MetamorphicProcess => ProcessClass.MetamorphicProcess
    case Microfracturing => ProcessClass.Microfracturing
    case Obduction => ProcessClass.Obduction
    case OrganicAccumulation => ProcessClass.OrganicAccumulation
    case Oxidation => ProcessClass.Oxidation
    case PartialMelting => ProcessClass.PartialMelting
    case PhysicalWeathering => ProcessClass.PhysicalWeathering
    case PlinianEruption => ProcessClass.PlinianEruption
    case PolarWander => ProcessClass.PolarWander
    case PressureReleaseWeathering => ProcessClass.PressureReleaseWeathering
    case PyroclasticEruption => ProcessClass.PyroclasticEruption
    case Rifting => ProcessClass.Rifting
    case SeaLevelChange => SeaLevelFluctuation  // not exact
    case SedimentaryProcess => ProcessClass.SedimentaryProcess
    case Shearing => ProcessClass.Shearing
    case Spreading => ProcessClass.Spreading
    case StrombolianEruption => ProcessClass.StrombolianEruption
    case Subduction => ProcessClass.Subduction
    case TectonicProcess => ProcessClass.TectonicProcess
    case ThermalShockWeathering => ProcessClass.ThermalShockWeathering
    case TractionSaltationOrSuspensionDeposition => TractionSaltationorSuspensionDeposition
    case TransformFaulting => ProcessClass.TransformFaulting
    case TurbidityCurrentDeposition => ProcessClass.TurbidityCurrentDeposition
    case VulcanianEruption => ProcessClass.VulcanianEruption
    case WaterErosion => ProcessClass.WaterErosion
    case Weathering => ProcessClass.Weathering
    case WindErosion => ProcessClass.WindErosion
  }

  /** The GSPR classes whose entries the source leaves commented out. */
  predicate Unmapped(c: ProcessClass) {
    c in {DepositionHiatus, DuctileFlattening, DuctileSimpleShear, FlexuralSlip, GeodynamoProcess, LavaFlow, Metasomatism, MountainBuilding, Pyrometamorphism, RegionalMetamorphism, SubaerialExtrusion, SubaqueousExtrusion}
  }

  /** `geologic_processes.get(URIRef(iri))`: the GSO process class of an
      event-process IRI, when the table has one. */
  function ProcessSubtype(iri: string): (r: Option<string>)
    ensures r.Some? <==> exists k :: iri == Ep + k && EventProcessOf(k).Some?
    ensures forall k | iri == Ep + k && EventProcessOf(k).Some? :: r == Some(Gspr + ClassName(ProcessClassOf(EventProcessOf(k).value)))
  {
    if |Ep| <= |iri| && iri[..|Ep|] == Ep && EventProcessOf(iri[|Ep|..]).Some? then
      Some(Gspr + ClassName(ProcessClassOf(EventProcessOf(iri[|Ep|..]).value)))
    else
      None
  }

  /** An IRI in the event-process namespace is typed by its local name. */
  lemma SubtypeOfLocal(local: string)
    ensures ProcessSubtype(Ep + local)
      == if EventProcessOf(local).Some? then Some(Gspr + ClassName(ProcessClassOf(EventProcessOf(local).value))) else None
  {
    assert (Ep + local)[|Ep|..] == local;
  }

  /** No event process is typed with a GSPR class the source left commented out. */
  lemma UnmappedNeverProduced(e: EventProcess, c: ProcessClass)
    requires Unmapped(c)
    ensures ProcessClassOf(e) != c
  {
  }
}
