/**
 * The AI data-centre ("factory") cost calculator: a configuration of a
 * facility is mapped through four constant price tables and a chain of
 * products and sums to a breakdown of capital and operating costs.
 *
 * Monetary amounts that are always whole numbers (building, racks,
 * GPUs, cooling, backup power, staff, CAPEX) are `int`; power figures and
 * everything that depends on the PUE ratio or the electricity price are
 * exact `real`s.
 */
module Factory {

  datatype GpuType = H100 | A100 | L40s

  datatype Region = Us | Eu | Asia

  /** The form's fields after numeric coercion. */
  datatype Config = Config(
    facilitySize: int,       // square feet
    rackCount: int,
    gpuType: GpuType,
    gpuPerRack: int,
    powerCostPerKwh: real,
    pue: real,               // power usage effectiveness ratio
    staffCount: int,
    region: Region
  )

  datatype Infrastructure = Infrastructure(racks: int, networking: int, cooling: int, backup: int, total: int)

  datatype Compute = Compute(gpuCount: int, gpuCost: int, totalPowerKw: real, totalPowerWithPue: real)

  datatype Operating = Operating(annualPower: real, annualStaff: int, total: real)

  datatype Totals = Totals(capex: int, opexAnnual: real, fiveYearTco: real)

  datatype Breakdown = Breakdown(
    building: int,
    infrastructure: Infrastructure,
    compute: Compute,
    operating: Operating,
    totals: Totals
  )

  // ---------------------------------------------------------------------
  // Price tables

  /** Purchase price of one GPU, in dollars. */
  function GpuPrice(g: GpuType): (p: int)
    ensures 8000 <= p <= 30970
    ensures g == H100 <==> p == 30970
  {
    match g
    case H100 => 30970
    case A100 => 18000
    case L40s => 8000
  }

  /** Power draw of one GPU, in watts. */
  function GpuPowerWatts(g: GpuType): (w: int)
    ensures 300 <= w <= 700
    ensures g == L40s <==> w == 300
  {
    match g
    case H100 => 700
    case A100 => 400
    case L40s => 300
  }

  /** Construction cost per square foot, in dollars. */
  function ConstructionCostPerSqFt(region: Region): (c: int)
    ensures 600 <= c <= 900
  {
    match region
    case Us => 800
    case Eu => 900
    case Asia => 600
  }

  /** Annual salary of one member of staff, in dollars. */
  function StaffSalary(region: Region): (s: int)
    ensures 35000 <= s <= 120000
  {
    match region
    case Us => 120000
    case Eu => 85000
    case Asia => 35000
  }

  // ---------------------------------------------------------------------
  // Step functions for cooling and backup power

  /** JavaScript's Math.ceil: the least integer not below x. */
  function Ceil(x: real): (c: int)
    ensures x <= c as real < x + 1.0
  {
    -((-x).Floor)
  }

  /** Cooling is bought in 5 MW units of $2,000,000: the fewest units that cover the load. */
  function CoolingCost(powerKw: real): (cost: int)
    ensures cost % 2000000 == 0
    ensures powerKw <= (cost / 2000000) as real * 5000.0
    ensures ((cost / 2000000) - 1) as real * 5000.0 < powerKw
  {
    Ceil(powerKw / 5000.0) * 2000000
  }

  /** Backup power is bought in 2 MW units of $750,000: the fewest units that cover the load. */
  function BackupPowerCost(powerKw: real): (cost: int)
    ensures cost % 750000 == 0
    ensures powerKw <= (cost / 750000) as real * 2000.0
    ensures ((cost / 750000) - 1) as real * 2000.0 < powerKw
  {
    Ceil(powerKw / 2000.0) * 750000
  }

  // ---------------------------------------------------------------------
  // The calculation

  /** Raw IT load in kW: every GPU's draw plus 2000 W of overhead per rack. */
  function PowerKw(cfg: Config): (kw: real)
    ensures cfg.rackCount >= 0 && cfg.gpuPerRack >= 0 ==> kw >= 0.0
    ensures cfg.rackCount == 0 ==> kw == 0.0
  {
    ((cfg.rackCount * cfg.gpuPerRack * GpuPowerWatts(cfg.gpuType) + cfg.rackCount * 2000) as real) / 1000.0
  }

  /** GPU count, GPU purchase cost and electrical load of the racks. */
  function ComputeOf(cfg: Config): (c: Compute)
    ensures c.gpuCount == cfg.rackCount * cfg.gpuPerRack
    ensures c.gpuCost == c.gpuCount * GpuPrice(cfg.gpuType)
    ensures c.totalPowerKw == ((c.gpuCount * GpuPowerWatts(cfg.gpuType) + cfg.rackCount * 2000) as real) / 1000.0
    ensures c.totalPowerWithPue == c.totalPowerKw * cfg.pue
  {
    var totalGpus := cfg.rackCount * cfg.gpuPerRack;
    var totalPowerKw := PowerKw(cfg);
    Compute(totalGpus, totalGpus * GpuPrice(cfg.gpuType), totalPowerKw, totalPowerKw * cfg.pue)
  }

  /** Racks, networking, and cooling and backup power sized for the raw load `powerKw`. */
  function InfrastructureOf(cfg: Config, powerKw: real): (i: Infrastructure)
    ensures i.racks == 3000 * cfg.rackCount && i.networking == 30000 * cfg.rackCount
    ensures i.cooling == CoolingCost(powerKw) && i.backup == BackupPowerCost(powerKw)
    ensures i.total == i.racks + i.networking + i.cooling + i.backup
  {
    var rackCost := cfg.rackCount * 3000;
    var networkingCost := cfg.rackCount * 30000;
    var coolingCost := CoolingCost(powerKw);
    var backupPowerCost := BackupPowerCost(powerKw);
    Infrastructure(rackCost, networkingCost, coolingCost, backupPowerCost,
                   rackCost + networkingCost + coolingCost + backupPowerCost)
  }

  /** Yearly electricity for the load `powerWithPue` around the clock, plus staff salaries. */
  function OperatingOf(cfg: Config, powerWithPue: real): (o: Operating)
    ensures o.annualPower == powerWithPue * 24.0 * 365.0 * cfg.powerCostPerKwh
    ensures o.annualStaff == cfg.staffCount * StaffSalary(cfg.region)
    ensures o.total == o.annualPower + o.annualStaff as real
  {
    var annualPowerCost := powerWithPue * 24.0 * 365.0 * cfg.powerCostPerKwh;
    var annualStaffCost := cfg.staffCount * StaffSalary(cfg.region);
    Operating(annualPowerCost, annualStaffCost, annualPowerCost + annualStaffCost as real)
  }

  function Calculate(cfg: Config): (b: Breakdown)
    ensures b.building == cfg.facilitySize * ConstructionCostPerSqFt(cfg.region)
    ensures b.compute == ComputeOf(cfg)
    ensures b.infrastructure == InfrastructureOf(cfg, b.compute.totalPowerKw)
    ensures b.operating == OperatingOf(cfg, b.compute.totalPowerWithPue)
    ensures b.totals.capex == b.building + b.infrastructure.total + b.compute.gpuCost
    ensures b.totals.opexAnnual == b.operating.total
    ensures b.totals.fiveYearTco == b.totals.capex as real + 5.0 * b.totals.opexAnnual
  {
    var buildingCost := cfg.facilitySize * ConstructionCostPerSqFt(cfg.region);
    var compute := ComputeOf(cfg);
    var infrastructure := InfrastructureOf(cfg, compute.totalPowerKw);
    var operating := OperatingOf(cfg, compute.totalPowerWithPue);
    var totalCapex := buildingCost + infrastructure.racks + infrastructure.networking + compute.gpuCost
                      + infrastructure.cooling + infrastructure.backup;
    Breakdown(buildingCost, infrastructure, compute, operating,
              Totals(totalCapex, operating.total, totalCapex as real + operating.total * 5.0))
  }

  // ---------------------------------------------------------------------
  // Properties of the step functions

  lemma CeilMonotone(x: real, y: real)
    requires x <= y
    ensures Ceil(x) <= Ceil(y)
  {
  }

  /** Cooling and backup power cost nothing at zero load and never decrease as the load grows. */
  lemma StepCostsMonotone(kw1: real, kw2: real)
    requires kw1 <= kw2
    ensures CoolingCost(0.0) == 0 && BackupPowerCost(0.0) == 0
    ensures CoolingCost(kw1) <= CoolingCost(kw2)
    ensures BackupPowerCost(kw1) <= BackupPowerCost(kw2)
  {
    CeilMonotone(kw1 / 5000.0, kw2 / 5000.0);
    CeilMonotone(kw1 / 2000.0, kw2 / 2000.0);
  }

  /** The 5 MW boundary: exactly 5000 kW needs one cooling unit, anything above needs two or more. */
  lemma CoolingBoundary(kw: real)
    requires kw > 5000.0
    ensures CoolingCost(5000.0) == 2000000
    ensures CoolingCost(kw) >= 4000000
  {
  }

  /** The 2 MW boundary: exactly 2000 kW needs one backup unit, anything above needs two or more. */
  lemma BackupBoundary(kw: real)
    requires kw > 2000.0
    ensures BackupPowerCost(2000.0) == 750000
    ensures BackupPowerCost(kw) >= 1500000
  {
  }

  // ---------------------------------------------------------------------
  // Properties of the calculation

  predicate NonNegativeInputs(cfg: Config)
  {
    && cfg.facilitySize >= 0 && cfg.rackCount >= 0 && cfg.gpuPerRack >= 0
    && cfg.powerCostPerKwh >= 0.0 && cfg.pue >= 0.0 && cfg.staffCount >= 0
  }

  lemma NonNegativeProduct(a: int, b: int)
    requires a >= 0 && b >= 0
    ensures a * b >= 0
  {
  }

  /** With non-negative inputs every monetary output is non-negative. */
  lemma MonetaryOutputsNonNegative(cfg: Config)
    requires NonNegativeInputs(cfg)
    ensures var b := Calculate(cfg);
      && b.building >= 0
      && b.infrastructure.racks >= 0 && b.infrastructure.networking >= 0
      && b.infrastructure.cooling >= 0 && b.infrastructure.backup >= 0 && b.infrastructure.total >= 0
      && b.compute.gpuCount >= 0 && b.compute.gpuCost >= 0
      && b.compute.totalPowerKw >= 0.0 && b.compute.totalPowerWithPue >= 0.0
      && b.operating.annualPower >= 0.0 && b.operating.annualStaff >= 0 && b.operating.total >= 0.0
      && b.totals.capex >= 0 && b.totals.opexAnnual >= 0.0 && b.totals.fiveYearTco >= 0.0
  {
    var b := Calculate(cfg);
    NonNegativeProduct(cfg.facilitySize, ConstructionCostPerSqFt(cfg.region));
    NonNegativeProduct(cfg.rackCount, cfg.gpuPerRack);
    NonNegativeProduct(b.compute.gpuCount, GpuPrice(cfg.gpuType));
    NonNegativeProduct(cfg.staffCount, StaffSalary(cfg.region));
  }

  /**
   * A facility without racks costs nothing for racks, networking, GPUs,
   * cooling or backup power, while building and staff costs are unaffected.
   */
  lemma ZeroRacks(cfg: Config)
    requires cfg.rackCount == 0
    ensures var b := Calculate(cfg);
      && b.infrastructure.racks == 0 && b.infrastructure.networking == 0
      && b.infrastructure.cooling == 0 && b.infrastructure.backup == 0
      && b.compute.gpuCount == 0 && b.compute.gpuCost == 0
      && b.compute.totalPowerKw == 0.0 && b.operating.annualPower == 0.0
      && b.building == cfg.facilitySize * ConstructionCostPerSqFt(cfg.region)
      && b.operating.annualStaff == cfg.staffCount * StaffSalary(cfg.region)
      && b.totals.capex == b.building
  {
  }

  /** Adding racks (with a non-negative number of GPUs each) never lowers the capital expenditure. */
  lemma CapexMonotoneInRacks(cfg: Config, moreRacks: int)
    requires cfg.rackCount >= 0 && cfg.gpuPerRack >= 0 && moreRacks >= cfg.rackCount
    ensures Calculate(cfg).totals.capex <= Calculate(cfg.(rackCount := moreRacks)).totals.capex
  {
    var cfg' := cfg.(rackCount := moreRacks);
    var gpus, gpus' := cfg.rackCount * cfg.gpuPerRack, moreRacks * cfg.gpuPerRack;
    assert gpus <= gpus' by {
      NonNegativeProduct(moreRacks - cfg.rackCount, cfg.gpuPerRack);
    }
    assert gpus * GpuPrice(cfg.gpuType) <= gpus' * GpuPrice(cfg.gpuType) by {
      NonNegativeProduct(gpus' - gpus, GpuPrice(cfg.gpuType));
    }
    assert gpus * GpuPowerWatts(cfg.gpuType) <= gpus' * GpuPowerWatts(cfg.gpuType) by {
      NonNegativeProduct(gpus' - gpus, GpuPowerWatts(cfg.gpuType));
    }
    StepCostsMonotone(PowerKw(cfg), PowerKw(cfg'));
  }

  /** The form's initial configuration. */
  function DefaultConfig(): (cfg: Config)
    ensures NonNegativeInputs(cfg)
  {
    Config(100000, 500, H100, 8, 0.15, 1.58, 15, Us)
  }

  /** The figures the calculator shows for its initial configuration. */
  lemma DefaultScenario()
    ensures var b := Calculate(DefaultConfig());
      && b.compute.gpuCount == 4000
      && b.compute.gpuCost == 123880000
      && b.compute.totalPowerKw == 3800.0
      && b.compute.totalPowerWithPue == 6004.0
      && b.infrastructure.cooling == 2000000
      && b.infrastructure.backup == 1500000
      && b.building == 80000000
      && b.infrastructure.total == 20000000
      && b.totals.capex == 223880000
      && b.totals.opexAnnual == 9689256.0
      && b.totals.fiveYearTco == 272326280.0
  {
    var cfg := DefaultConfig();
    var c := ComputeOf(cfg);
    assert c.gpuCount == 4000;
    assert c.totalPowerKw == 3800.0;
    assert c.totalPowerWithPue == 6004.0;
    assert Ceil(3800.0 / 5000.0) == 1;
    assert Ceil(3800.0 / 2000.0) == 2;
    var i := InfrastructureOf(cfg, c.totalPowerKw);
    assert i.total == 20000000;
    var o := OperatingOf(cfg, c.totalPowerWithPue);
    assert o.total == 9689256.0;
  }
}
