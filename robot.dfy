/**
 * The AI robotics project cost calculator: an additive bill of materials.
 * Licences are paid per developer, the robot's hardware is priced from two
 * tables plus per-unit camera and actuator prices and a fixed
 * microcontroller, cloud training is billed per hour at a regional rate, and
 * a fixed chassis and a fixed 100 W annual power draw are added.
 */
module Robot {

  datatype JetsonModel = OrinNx | OrinAgx

  datatype LidarType = OusterOs1 | VelodyneVlp16

  datatype AwsRegion = UsEast | UsWest | EuWest

  /** The form's fields after numeric coercion. */
  datatype Config = Config(
    teamSize: int,
    jetsonModel: JetsonModel,
    lidarType: LidarType,
    cameraCount: int,
    actuatorCount: int,
    trainingHours: int,
    prototypes: int,
    awsRegion: AwsRegion,
    powerCost: real          // dollars per kWh
  )

  datatype Hardware = Hardware(jetson: int, lidar: int, cameras: int, actuators: int, microcontroller: int, total: int)

  datatype Breakdown = Breakdown(
    licensing: int,
    hardware: Hardware,
    training: real,
    prototyping: int,
    chassis: int,
    annualPower: real,
    total: real
  )

  // ---------------------------------------------------------------------
  // Price tables and constants

  /** Price of the compute module, in dollars. */
  function JetsonPrice(m: JetsonModel): (p: int)
    ensures 399 <= p <= 1999
    ensures m == OrinNx <==> p == 399
  {
    match m
    case OrinNx => 399
    case OrinAgx => 1999
  }

  /** Price of the LiDAR unit, in dollars. */
  function LidarPrice(l: LidarType): (p: int)
    ensures 4000 <= p <= 5000
    ensures l == VelodyneVlp16 <==> p == 4000
  {
    match l
    case OusterOs1 => 5000
    case VelodyneVlp16 => 4000
  }

  /** Cloud training rate, in dollars per hour. */
  function AwsRate(region: AwsRegion): (r: real)
    ensures 2.5 <= r <= 3.2
  {
    match region
    case UsEast => 2.50
    case UsWest => 2.75
    case EuWest => 3.20
  }

  const LicencePerDeveloper := 2000
  const CameraPrice := 350
  const ActuatorPrice := 200
  const MicrocontrollerCost := 40
  const PrototypeCost := 1500
  const ChassisCost := 20000

  // ---------------------------------------------------------------------
  // The calculation

  function Calculate(cfg: Config): (b: Breakdown)
    ensures b.licensing == 2000 * cfg.teamSize
    ensures b.prototyping == 1500 * cfg.prototypes
    ensures b.hardware.jetson == JetsonPrice(cfg.jetsonModel) && b.hardware.lidar == LidarPrice(cfg.lidarType)
    ensures b.hardware.cameras == 350 * cfg.cameraCount && b.hardware.actuators == 200 * cfg.actuatorCount
    ensures b.hardware.total
      == b.hardware.jetson + b.hardware.lidar + b.hardware.cameras + b.hardware.actuators + b.hardware.microcontroller
    ensures b.hardware.microcontroller == 40 && b.chassis == 20000
    ensures b.training == cfg.trainingHours as real * AwsRate(cfg.awsRegion)
    ensures b.annualPower == 876.0 * cfg.powerCost
    ensures b.total
      == (b.licensing + b.hardware.total + b.prototyping + b.chassis) as real + b.training + b.annualPower
  {
    var licensing := cfg.teamSize * LicencePerDeveloper;
    var jetsonCost := JetsonPrice(cfg.jetsonModel);
    var lidarCost := LidarPrice(cfg.lidarType);
    var cameraCost := cfg.cameraCount * CameraPrice;
    var actuatorCost := cfg.actuatorCount * ActuatorPrice;
    var hardwareTotal := jetsonCost + lidarCost + cameraCost + actuatorCost + MicrocontrollerCost;
    var trainingCost := cfg.trainingHours as real * AwsRate(cfg.awsRegion);
    var prototypingCost := cfg.prototypes * PrototypeCost;
    // 100 W on average, all year round
    var annualPowerCost := 365.0 * 24.0 * 0.1 * cfg.powerCost;
    var totalCost := licensing as real + hardwareTotal as real + trainingCost + prototypingCost as real
                     + ChassisCost as real + annualPowerCost;
    Breakdown(licensing,
              Hardware(jetsonCost, lidarCost, cameraCost, actuatorCost, MicrocontrollerCost, hardwareTotal),
              trainingCost, prototypingCost, ChassisCost, annualPowerCost, totalCost)
  }

  // ---------------------------------------------------------------------
  // Properties

  /** The annual power cost depends on the electricity price alone. */
  lemma AnnualPowerIndependent(cfg1: Config, cfg2: Config)
    requires cfg1.powerCost == cfg2.powerCost
    ensures Calculate(cfg1).annualPower == Calculate(cfg2).annualPower
    ensures Calculate(cfg1).chassis == Calculate(cfg2).chassis
  {
  }

  predicate NonNegativeInputs(cfg: Config)
  {
    && cfg.teamSize >= 0 && cfg.cameraCount >= 0 && cfg.actuatorCount >= 0
    && cfg.trainingHours >= 0 && cfg.prototypes >= 0 && cfg.powerCost >= 0.0
  }

  /**
   * With non-negative inputs the total is at least $24,439: the chassis,
   * the microcontroller, the cheaper compute module and the cheaper LiDAR.
   */
  lemma TotalLowerBound(cfg: Config)
    requires NonNegativeInputs(cfg)
    ensures Calculate(cfg).total >= 24439.0
    ensures Calculate(cfg).hardware.total >= 4439
  {
  }

  /** The bound is reached: nothing optional, the cheaper parts and free electricity. */
  lemma LowerBoundReached()
    ensures Calculate(Config(0, OrinNx, VelodyneVlp16, 0, 0, 0, 0, UsEast, 0.0)).total == 24439.0
  {
  }

  /**
   * Licences, cameras, actuators and prototypes are priced per unit: one more
   * unit adds exactly that unit's price to the total.
   */
  lemma MarginalUnitCosts(cfg: Config)
    ensures Calculate(cfg.(teamSize := cfg.teamSize + 1)).total == Calculate(cfg).total + 2000.0
    ensures Calculate(cfg.(cameraCount := cfg.cameraCount + 1)).total == Calculate(cfg).total + 350.0
    ensures Calculate(cfg.(actuatorCount := cfg.actuatorCount + 1)).total == Calculate(cfg).total + 200.0
    ensures Calculate(cfg.(prototypes := cfg.prototypes + 1)).total == Calculate(cfg).total + 1500.0
  {
  }

  /** One more training hour adds the region's hourly rate to the total. */
  lemma MarginalTrainingHour(cfg: Config)
    ensures Calculate(cfg.(trainingHours := cfg.trainingHours + 1)).total
            == Calculate(cfg).total + AwsRate(cfg.awsRegion)
  {
  }

  /** The form's initial configuration. */
  function DefaultConfig(): (cfg: Config)
    ensures NonNegativeInputs(cfg)
  {
    Config(5, OrinNx, OusterOs1, 2, 6, 100, 2, UsEast, 0.15)
  }

  /** The figures the calculator shows for its initial configuration. */
  lemma DefaultScenario()
    ensures var b := Calculate(DefaultConfig());
      && b.licensing == 10000
      && b.hardware.total == 7339
      && b.training == 250.0
      && b.prototyping == 3000
      && b.annualPower == 131.4
      && b.total == 40720.4
  {
  }
}
