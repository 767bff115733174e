# AI cost calculators: a Dafny model

The repository is a web dashboard with three cost calculators for AI projects. Each one turns a form's configuration into a cost breakdown in a single `calculateCosts` routine. This project models those three routines and proves what their outputs mean. There is one module per calculator:

- `Factory` (`factory.dfy`) models the AI data-centre calculator.
  - Building, rack and networking costs are products of the inputs.
  - GPU count, GPU cost and power draw come from per-GPU price and wattage tables.
  - The power draw is also given after the power usage effectiveness (PUE) ratio.
  - Cooling and backup power are bought in whole 5 MW and 2 MW units, so their cost is a ceiling step function of the load.
  - The outputs are CAPEX, annual OPEX (electricity plus regional staff salaries) and the five-year total cost of ownership.
  - `Calculate` follows the result record's sections: `ComputeOf`, `InfrastructureOf` and `OperatingOf` compute one section each.
- `Manpower` (`manpower.dfy`) models the AI team calculator.
  - The routine visits six roles in a fixed order and skips any role whose head count is not positive.
  - Each visited role is priced from a region-by-role table. A full-time role costs a twelfth of the annual salary per head. A freelance role costs 160 billable hours a month at the hourly rate.
  - Remote work applies a 15% discount.
  - The routine records each visited role in a breakdown map while it accumulates the monthly total.
  - That loop is the method `CalculateCosts`. Its invariants tie the running total to `MonthlyOver` over the roles visited so far. They tie the map to the visited roles with a positive count, each mapped to its `Entry`, and the insertion order to `Listed`. After the loop, the map is shown equal to `Breakdown`.
  - The source's breakdown is a JavaScript object, whose entries come back in insertion order. The model keeps that order as the sequence `roleOrder` beside the map.
  - `RoleTotal`, `Entry`, `Contribution`, `MonthlyOver`, `CountsOver` and `Listed` are plain definitions without contracts of their own. Lemmas state what they mean:
    - `RoleTotalFromUnitCost` and `RoleTotalSign` for `RoleTotal`;
    - `EntryConsistent` for `Entry`;
    - `ContributionSign` for `Contribution`;
    - `MonthlyOverSign` and `MonthlyIsSumOfBreakdown` for `MonthlyOver`;
    - `CountsOverNonNegative` and `CountsOverRoles` for `CountsOver`;
    - `ListedMembers` and `ListedInRoleOrder` for `Listed`.
  - Team size is the plain sum of all six counts, as the source's `reduce` computes it.
  - The average cost per person is `None` for an empty team, where the source divides by zero.
  - The unit cost stored for a freelancer is the hourly rate, not a monthly figure (see `UnitCost`).
- `Robot` (`robot.dfy`) models the AI robotics calculator. It is an additive bill of materials:
  - licences per developer;
  - hardware from two price tables, plus per-unit cameras and actuators and a fixed microcontroller;
  - cloud training billed per hour at a regional rate;
  - prototypes;
  - a fixed chassis;
  - a fixed 100 W annual power draw.

Form fields that the user interface reads with `parseInt` are `int`. Fields it reads with `parseFloat` (the PUE ratio and the electricity prices) are `real`. Every value derived through a division or a `real` input is an exact `real`. `Math.ceil` is `Factory.Ceil`.

## Model

| member | source | states |
|---|---|---|
| Factory.GpuPrice | src/components/AIFactoryCalculator.tsx:25-29 | a GPU costs between $8,000 and $30,970, and only the H100 costs $30,970 |
| Factory.GpuPowerWatts | src/components/AIFactoryCalculator.tsx:31-35 | a GPU draws between 300 W and 700 W, and only the L40S draws 300 W |
| Factory.ConstructionCostPerSqFt | src/components/AIFactoryCalculator.tsx:37-41 | construction costs between $600 and $900 per square foot |
| Factory.StaffSalary | src/components/AIFactoryCalculator.tsx:43-47 | a regional staff salary is between $35,000 and $120,000 |
| Factory.Ceil | src/components/AIFactoryCalculator.tsx:65-66 | the result is the least integer not below x |
| Factory.CoolingCost | src/components/AIFactoryCalculator.tsx:65 | cooling is a whole number of $2M units, and it is the fewest 5000 kW units that cover the load |
| Factory.BackupPowerCost | src/components/AIFactoryCalculator.tsx:66 | backup power is a whole number of $750k units, and it is the fewest 2000 kW units that cover the load |
| Factory.PowerKw | src/components/AIFactoryCalculator.tsx:60-61 | the raw load is non-negative for non-negative racks and GPUs per rack, and zero without racks |
| Factory.ComputeOf | src/components/AIFactoryCalculator.tsx:56-62 | GPU count is racks times GPUs per rack; GPU cost is count times unit price; load is (GPUs x watts + 2000 W per rack) / 1000; load with PUE is load times PUE |
| Factory.InfrastructureOf | src/components/AIFactoryCalculator.tsx:76-82 | racks cost $3,000 and networking $30,000 per rack; cooling and backup are the step costs of the raw load; the total is the four parts |
| Factory.OperatingOf | src/components/AIFactoryCalculator.tsx:63-71 | annual power is load with PUE x 24 x 365 x price per kWh; staff cost is head count times regional salary; the total is their sum |
| Factory.Calculate | src/components/AIFactoryCalculator.tsx:49-100 | building is area x regional rate; each section is as above; CAPEX is building + infrastructure total + GPU cost; OPEX is the operating total; five-year TCO is CAPEX + 5 x OPEX |
| Factory.CeilMonotone | src/components/AIFactoryCalculator.tsx:65-66 | the ceiling never decreases as its argument grows |
| Factory.StepCostsMonotone | src/components/AIFactoryCalculator.tsx:65-66 | cooling and backup cost nothing at 0 kW and never decrease as the load grows |
| Factory.CoolingBoundary | src/components/AIFactoryCalculator.tsx:65 | 5000 kW needs one cooling unit ($2M); any load above it needs at least $4M |
| Factory.BackupBoundary | src/components/AIFactoryCalculator.tsx:66 | 2000 kW needs one backup unit ($750k); any load above it needs at least $1.5M |
| Factory.MonetaryOutputsNonNegative | src/components/AIFactoryCalculator.tsx:50-72 | with non-negative inputs every cost, power figure and total is non-negative |
| Factory.ZeroRacks | src/components/AIFactoryCalculator.tsx:50-72 | without racks, racks, networking, GPUs, power, cooling and backup cost zero; building and staff costs are unchanged and CAPEX is the building alone |
| Factory.CapexMonotoneInRacks | src/components/AIFactoryCalculator.tsx:53-70 | adding racks, each with a non-negative number of GPUs, never lowers CAPEX |
| Factory.DefaultConfig | src/components/AIFactoryCalculator.tsx:12-21 | the form's initial configuration has non-negative inputs |
| Factory.DefaultScenario | src/components/AIFactoryCalculator.tsx:12-72 | the initial configuration gives 4000 GPUs costing $123,880,000, 3800 kW (6004 kW with PUE), cooling $2M, backup $1.5M, building $80M, CAPEX $223,880,000, OPEX $9,689,256 and a TCO of $272,326,280 |
| Manpower.FulltimeSalary | src/components/AIManpowerCalculator.tsx:28-61 | every annual salary in the table is between $20,000 and $258,000 |
| Manpower.FreelanceRate | src/components/AIManpowerCalculator.tsx:28-61 | every hourly rate in the table is between $28 and $200 |
| Manpower.Discount | src/components/AIManpowerCalculator.tsx:67 | the discount factor lies in (0, 1] and is below 1 exactly when the team works remotely |
| Manpower.UnitCost | src/components/AIManpowerCalculator.tsx:98 | the recorded unit cost is the hourly rate for freelancers and a twelfth of the annual salary for full-time staff; it is never discounted |
| Manpower.RoleTotalFromUnitCost | src/components/AIManpowerCalculator.tsx:84-92 | a role's total is unit cost x (160 hours if freelance) x head count x discount |
| Manpower.RoleTotalSign | src/components/AIManpowerCalculator.tsx:84-92 | a role's total is positive exactly when its head count is, and zero for a zero count |
| Manpower.RoleNamesDistinct | src/components/AIManpowerCalculator.tsx:70-75 | different roles have different display names |
| Manpower.EntryConsistent | src/components/AIManpowerCalculator.tsx:95-100 | an entry holds the role's name and count, its total is unit cost x (160 hours if freelance) x count x discount, and the total is positive exactly when the count is |
| Manpower.ContributionSign | src/components/AIManpowerCalculator.tsx:82-93 | a role adds nothing unless its count is positive; otherwise it adds its entry's total, which is positive |
| Manpower.MonthlyOverSign | src/components/AIManpowerCalculator.tsx:78-93 | the accumulated monthly cost is never negative, and it is positive exactly when some visited role has a positive count |
| Manpower.CountsOverNonNegative | src/components/AIManpowerCalculator.tsx:105 | the sum of the counts is not negative when no count is |
| Manpower.ListedMembers | src/components/AIManpowerCalculator.tsx:81-100 | the roles inserted into the breakdown are exactly the visited roles with a positive count |
| Manpower.RoleIndex | src/components/AIManpowerCalculator.tsx:69-76 | every role has a position in the fixed visiting order |
| Manpower.RolesDistinct | src/components/AIManpowerCalculator.tsx:69-76 | no role is visited twice |
| Manpower.ListedInOrderOver | src/components/AIManpowerCalculator.tsx:81-100 | over any prefix of the visiting order, the inserted roles come strictly in that order, so none is inserted twice |
| Manpower.ListedInRoleOrder | src/components/AIManpowerCalculator.tsx:79-100 | the breakdown's entries are listed in the fixed role order, each key once, and nothing else |
| Manpower.ListedStep | src/components/AIManpowerCalculator.tsx:81-100 | visiting one more role appends it to the insertion order exactly when its count is positive |
| Manpower.AllRolesListed | src/components/AIManpowerCalculator.tsx:69-76 | the fixed role list covers every role |
| Manpower.CountsOverRoles | src/components/AIManpowerCalculator.tsx:105 | the reduce over the six roles is the sum of the six counts |
| Manpower.MonthlyOverRoles | src/components/AIManpowerCalculator.tsx:78-102 | the accumulated monthly total is the sum of the six roles' contributions |
| Manpower.MonthlyOverStep | src/components/AIManpowerCalculator.tsx:81-93 | visiting one more role adds exactly that role's contribution to the monthly total |
| Manpower.TeamSize | src/components/AIManpowerCalculator.tsx:105 | team size is the sum of all six counts, including zero and negative ones |
| Manpower.Breakdown | src/components/AIManpowerCalculator.tsx:81-101 | a role is in the breakdown exactly when its count is positive, and its entry holds its name, count, unit cost and total |
| Manpower.AverageCost | src/components/AIManpowerCalculator.tsx:112 | the average is undefined exactly when the team size is zero; otherwise it times the team size gives the monthly cost |
| Manpower.CalculateCosts | src/components/AIManpowerCalculator.tsx:63-114 | monthly is the accumulated contribution of all roles; the breakdown holds exactly the positive-count roles, inserted in the fixed role order; total is monthly x duration; team size and average as above |
| Manpower.MonthlyOverIsSumOfEntries | src/components/AIManpowerCalculator.tsx:93-99 | over any role list, the monthly accumulation equals the sum of the breakdown's total costs |
| Manpower.MonthlyIsSumOfBreakdown | src/components/AIManpowerCalculator.tsx:93-99 | the monthly cost is the sum of the total costs over the breakdown's entries |
| Manpower.CountsOverIsSumOfEntries | src/components/AIManpowerCalculator.tsx:82-105 | with no negative count, summing counts over a role list equals summing the counts recorded in the breakdown |
| Manpower.BreakdownCountsMatchTeamSize | src/components/AIManpowerCalculator.tsx:82-105 | with no negative count, the breakdown's counts add up to the team size |
| Manpower.NegativeCountBreaksTeamSize | src/components/AIManpowerCalculator.tsx:82-112 | with counts 1 and -1 the team size is 0, yet the breakdown lists one person and the average is undefined |
| Manpower.RoleRemoteDiscount | src/components/AIManpowerCalculator.tsx:86-98 | remote work multiplies one role's total by 0.85 and leaves its unit cost alone |
| Manpower.MonthlyOverScales | src/components/AIManpowerCalculator.tsx:92-93 | remote work multiplies the monthly accumulation over any role list by 0.85 |
| Manpower.BreakdownRemoteDiscount | src/components/AIManpowerCalculator.tsx:92-99 | remote work keeps the breakdown's roles and unit costs and multiplies every total cost by 0.85 |
| Manpower.RemoteDiscount | src/components/AIManpowerCalculator.tsx:67-104 | remote work multiplies the monthly and project totals by exactly 0.85 |
| Manpower.ContributionIgnoresProjectType | src/components/AIManpowerCalculator.tsx:81-93 | a role's contribution to the monthly total does not depend on the project type |
| Manpower.EntryIgnoresProjectType | src/components/AIManpowerCalculator.tsx:95-100 | a role's breakdown entry does not depend on the project type |
| Manpower.ProjectTypeIrrelevantOver | src/components/AIManpowerCalculator.tsx:78-102 | over any role list, the monthly accumulation does not depend on the project type |
| Manpower.ProjectTypeIrrelevant | src/components/AIManpowerCalculator.tsx:63-113 | the project type changes neither the monthly cost, nor the breakdown, nor the team size |
| Manpower.DefaultConfig | src/components/AIManpowerCalculator.tsx:12-24 | in the form's initial configuration every role has a positive count |
| Manpower.DefaultScenario | src/components/AIManpowerCalculator.tsx:12-112 | the initial configuration gives a team of 7, $1,184,000 a year ($592,000 over 6 months), all six roles listed, ML engineers at $158,000 per half year, and a defined average |
| Robot.JetsonPrice | src/components/AIRobotCalculator.tsx:26-29 | the compute module costs $399 (Orin NX) or $1,999 |
| Robot.LidarPrice | src/components/AIRobotCalculator.tsx:31-34 | the LiDAR costs $4,000 (VLP-16) or $5,000 |
| Robot.AwsRate | src/components/AIRobotCalculator.tsx:36-40 | training costs between $2.50 and $3.20 an hour |
| Robot.Calculate | src/components/AIRobotCalculator.tsx:42-78 | licensing is 2000 x developers; hardware is module + LiDAR + 350 x cameras + 200 x actuators + 40; training is hours x rate; prototyping is 1500 x prototypes; chassis is 20000; annual power is 876 x price per kWh; the total is the sum of all of these |
| Robot.AnnualPowerIndependent | src/components/AIRobotCalculator.tsx:56-58 | annual power depends on the electricity price alone, and the chassis cost is constant |
| Robot.TotalLowerBound | src/components/AIRobotCalculator.tsx:43-60 | with non-negative inputs the hardware costs at least $4,439 and the total at least $24,439 |
| Robot.LowerBoundReached | src/components/AIRobotCalculator.tsx:43-60 | the $24,439 bound is reached with zero counts, the cheaper parts and free electricity |
| Robot.MarginalUnitCosts | src/components/AIRobotCalculator.tsx:43-60 | one more developer, camera, actuator or prototype adds exactly $2,000, $350, $200 or $1,500 to the total |
| Robot.MarginalTrainingHour | src/components/AIRobotCalculator.tsx:52-60 | one more training hour adds exactly the region's hourly rate to the total |
| Robot.DefaultConfig | src/components/AIRobotCalculator.tsx:12-22 | the form's initial configuration has non-negative inputs |
| Robot.DefaultScenario | src/components/AIRobotCalculator.tsx:12-60 | the initial configuration gives licensing $10,000, hardware $7,339, training $250, prototyping $3,000, annual power $131.40 and a total of $40,720.40 |

## Left out

- Rendering, form state (`useState`, `setResults`) and the dashboard's navigation between calculators (`src/pages/Index.tsx`) are left out. They hold no cost logic. The value each calculation would store with `setResults` is the model's return value.
- Each calculator's `exportResults` is left out. It formats a text report with locale-dependent number formatting and downloads it through browser APIs. Its `if (!results) return` guard only keeps the report from being built while there are no results yet.
- The report labels every unit cost "/month", including a freelancer's hourly rate. The report is not part of this model; `Manpower.UnitCost` records the hourly figure the calculation stores.
- The form handlers' `parseInt`/`parseFloat` coercions and their fallbacks (`|| 0`, `|| 1`, `|| 1.0`) are left out. Every calculation takes an already-coerced configuration.
- Lookups with keys outside the form's options are not modelled: each table key is a datatype, so every lookup is defined.
- IEEE-754 double rounding is not modelled. Money and power are exact reals, so for example 3800 x 1.58 is exactly 6004 here.
- Manpower.AverageCost: where the source divides by a team size of zero and shows NaN or Infinity, the model returns `None`.
