/**
 * The AI team ("manpower") cost calculator. Six roles are visited in a
 * fixed order; every role with a positive head count is priced from a
 * region-by-role salary table, either as a monthly share of an annual
 * salary or as 160 billable hours a month, discounted by 15% for remote
 * work, and recorded in a per-role breakdown while a monthly total is
 * accumulated.
 *
 * The accumulation is the method `CalculateCosts`; the pure functions
 * `MonthlyOver`, `CountsOver` and `Listed` define what it computes over
 * any prefix of the roles, `Breakdown` the per-role map it builds, and the
 * lemmas state what those mean.
 */
module Manpower {

  datatype Option<T> = None | Some(value: T)

  datatype Region = Us | Eu | India | Asia

  datatype Employment = Fulltime | Freelance

  datatype Role = MlEngineer | AiResearcher | DataScientist | MlopsEngineer | DevopsEngineer | ProductManager

  /** The order in which the calculator visits the roles. */
  const Roles: seq<Role> := [MlEngineer, AiResearcher, DataScientist, MlopsEngineer, DevopsEngineer, ProductManager]

  /** The form's fields after numeric coercion. */
  datatype Config = Config(
    projectType: string,     // shown in the report only
    region: Region,
    employmentType: Employment,
    projectDuration: int,    // months
    mlEngineers: int,
    aiResearchers: int,
    dataScientists: int,
    mlopsEngineers: int,
    devopsEngineers: int,
    productManagers: int,
    remoteWork: bool
  )

  /** One entry of the per-role breakdown. */
  datatype RoleCost = RoleCost(name: string, count: int, unitCost: real, totalCost: real)

  datatype Result = Result(
    monthly: real,
    total: real,
    teamSize: int,
    roles: map<Role, RoleCost>,
    roleOrder: seq<Role>,            // the order in which the entries of `roles` were inserted
    avgCostPerPerson: Option<real>   // None where the source divides by a team size of zero
  )

  // ---------------------------------------------------------------------
  // Tables

  /** Annual full-time salary, in dollars. */
  function FulltimeSalary(region: Region, role: Role): (s: int)
    ensures 20000 <= s <= 258000
  {
    match region
    case Us =>
      (match role
       case MlEngineer => 158000 case AiResearcher => 258000 case DataScientist => 140000
       case MlopsEngineer => 155000 case DevopsEngineer => 135000 case ProductManager => 180000)
    case Eu =>
      (match role
       case MlEngineer => 95000 case AiResearcher => 180000 case DataScientist => 85000
       case MlopsEngineer => 105000 case DevopsEngineer => 90000 case ProductManager => 120000)
    case India =>
      (match role
       case MlEngineer => 25000 case AiResearcher => 45000 case DataScientist => 22000
       case MlopsEngineer => 28000 case DevopsEngineer => 20000 case ProductManager => 35000)
    case Asia =>
      (match role
       case MlEngineer => 55000 case AiResearcher => 95000 case DataScientist => 48000
       case MlopsEngineer => 58000 case DevopsEngineer => 45000 case ProductManager => 75000)
  }

  /** Freelance hourly rate, in dollars. */
  function FreelanceRate(region: Region, role: Role): (r: int)
    ensures 28 <= r <= 200
  {
    match region
    case Us =>
      (match role
       case MlEngineer => 150 case AiResearcher => 200 case DataScientist => 130
       case MlopsEngineer => 140 case DevopsEngineer => 125 case ProductManager => 160)
    case Eu =>
      (match role
       case MlEngineer => 120 case AiResearcher => 150 case DataScientist => 100
       case MlopsEngineer => 110 case DevopsEngineer => 95 case ProductManager => 130)
    case India =>
      (match role
       case MlEngineer => 35 case AiResearcher => 55 case DataScientist => 30
       case MlopsEngineer => 38 case DevopsEngineer => 28 case ProductManager => 45)
    case Asia =>
      (match role
       case MlEngineer => 65 case AiResearcher => 110 case DataScientist => 55
       case MlopsEngineer => 68 case DevopsEngineer => 52 case ProductManager => 85)
  }

  function RoleName(role: Role): string
  {
    match role
    case MlEngineer => "ML Engineers"
    case AiResearcher => "AI Researchers"
    case DataScientist => "Data Scientists"
    case MlopsEngineer => "MLOps Engineers"
    case DevopsEngineer => "DevOps Engineers"
    case ProductManager => "Product Managers"
  }

  /** The display names tell the roles apart. */
  lemma RoleNamesDistinct(r1: Role, r2: Role)
    ensures RoleName(r1) == RoleName(r2) ==> r1 == r2
  {
    if RoleName(r1) == RoleName(r2) {
      assert |RoleName(r1)| == |RoleName(r2)| && RoleName(r1)[0] == RoleName(r2)[0];
    }
  }

  function Count(cfg: Config, role: Role): int
  {
    match role
    case MlEngineer => cfg.mlEngineers
    case AiResearcher => cfg.aiResearchers
    case DataScientist => cfg.dataScientists
    case MlopsEngineer => cfg.mlopsEngineers
    case DevopsEngineer => cfg.devopsEngineers
    case ProductManager => cfg.productManagers
  }

  const WorkHoursPerMonth := 160

  // ---------------------------------------------------------------------
  // Pricing of one role

  function Discount(remoteWork: bool): (d: real)
    ensures 0.0 < d <= 1.0
    ensures remoteWork <==> d < 1.0
  {
    if remoteWork then 0.85 else 1.0
  }

  /**
   * The unit cost recorded in the breakdown: a monthly salary for
   * full-time staff but the HOURLY rate for freelancers, and never discounted.
   */
  function UnitCost(cfg: Config, role: Role): (u: real)
    ensures cfg.employmentType == Freelance ==> u == FreelanceRate(cfg.region, role) as real
    ensures cfg.employmentType == Fulltime ==> 12.0 * u == FulltimeSalary(cfg.region, role) as real
    ensures u > 0.0
  {
    if cfg.employmentType == Freelance then FreelanceRate(cfg.region, role) as real
    else FulltimeSalary(cfg.region, role) as real / 12.0
  }

  /** The monthly cost of all staff in one role, after the remote-work discount. */
  function RoleTotal(cfg: Config, role: Role): real
  {
    var cost :=
      if cfg.employmentType == Freelance then
        (FreelanceRate(cfg.region, role) * WorkHoursPerMonth * Count(cfg, role)) as real
      else
        (FulltimeSalary(cfg.region, role) as real / 12.0) * Count(cfg, role) as real;
    cost * Discount(cfg.remoteWork)
  }

  /** A role's total has the sign of its head count. */
  lemma RoleTotalSign(cfg: Config, role: Role)
    ensures RoleTotal(cfg, role) > 0.0 <==> Count(cfg, role) > 0
    ensures Count(cfg, role) == 0 ==> RoleTotal(cfg, role) == 0.0
  {
    var cost :=
      if cfg.employmentType == Freelance then
        (FreelanceRate(cfg.region, role) * WorkHoursPerMonth * Count(cfg, role)) as real
      else
        (FulltimeSalary(cfg.region, role) as real / 12.0) * Count(cfg, role) as real;
    assert cost > 0.0 <==> Count(cfg, role) > 0;
    SignOfProduct(cost, Discount(cfg.remoteWork));
  }

  lemma SignOfProduct(a: real, b: real)
    requires b > 0.0
    ensures a * b > 0.0 <==> a > 0.0
    ensures a == 0.0 ==> a * b == 0.0
  {
  }

  /**
   * A role's total is its unit cost times its head count times the
   * discount, where a freelancer's unit cost is per hour and so is first
   * multiplied by the 160 working hours of a month.
   */
  lemma RoleTotalFromUnitCost(cfg: Config, role: Role)
    ensures RoleTotal(cfg, role)
      == UnitCost(cfg, role) * (if cfg.employmentType == Freelance then WorkHoursPerMonth as real else 1.0)
         * Count(cfg, role) as real * Discount(cfg.remoteWork)
  {
  }

  /** One entry of the breakdown, for a role with a positive count. */
  function Entry(cfg: Config, role: Role): RoleCost
  {
    RoleCost(RoleName(role), Count(cfg, role), UnitCost(cfg, role), RoleTotal(cfg, role))
  }

  /**
   * An entry is consistent in itself: its total cost is its unit cost times
   * (160 hours if freelance) times its count times the discount, and it is
   * positive exactly when the count is.
   */
  lemma EntryConsistent(cfg: Config, role: Role)
    ensures var e := Entry(cfg, role);
      && e.name == RoleName(role) && e.count == Count(cfg, role)
      && e.totalCost
         == e.unitCost * (if cfg.employmentType == Freelance then WorkHoursPerMonth as real else 1.0)
            * e.count as real * Discount(cfg.remoteWork)
      && (e.totalCost > 0.0 <==> e.count > 0)
  {
    RoleTotalFromUnitCost(cfg, role);
    RoleTotalSign(cfg, role);
  }

  // ---------------------------------------------------------------------
  // What the loop computes over a prefix of the roles

  /** What one role adds to the monthly total: nothing unless its count is positive. */
  function Contribution(cfg: Config, role: Role): real
  {
    if Count(cfg, role) > 0 then RoleTotal(cfg, role) else 0.0
  }

  /**
   * The guard: a role with a positive count contributes its breakdown
   * entry's total, which is positive; any other role contributes nothing.
   */
  lemma ContributionSign(cfg: Config, role: Role)
    ensures Contribution(cfg, role) >= 0.0
    ensures Contribution(cfg, role) > 0.0 <==> Count(cfg, role) > 0
    ensures Count(cfg, role) > 0 ==> Contribution(cfg, role) == Entry(cfg, role).totalCost
  {
    RoleTotalSign(cfg, role);
  }

  /** The accumulated monthly cost after visiting the roles `rs` in order. */
  function MonthlyOver(cfg: Config, rs: seq<Role>): real
  {
    if rs == [] then 0.0 else MonthlyOver(cfg, rs[..|rs| - 1]) + Contribution(cfg, rs[|rs| - 1])
  }

  /**
   * The accumulated monthly cost is never negative, whatever the counts,
   * and it is positive exactly when some visited role has a positive count.
   */
  lemma {:induction false} MonthlyOverSign(cfg: Config, rs: seq<Role>)
    ensures MonthlyOver(cfg, rs) >= 0.0
    ensures MonthlyOver(cfg, rs) > 0.0 <==> exists i :: 0 <= i < |rs| && Count(cfg, rs[i]) > 0
  {
    if rs != [] {
      var init, last := rs[..|rs| - 1], rs[|rs| - 1];
      MonthlyOverSign(cfg, init);
      ContributionSign(cfg, last);
      assert forall i :: 0 <= i < |init| ==> init[i] == rs[i];
    }
  }

  /** The left-to-right sum of the counts of `rs`, zero and negative ones included. */
  function CountsOver(cfg: Config, rs: seq<Role>): int
  {
    if rs == [] then 0 else CountsOver(cfg, rs[..|rs| - 1]) + Count(cfg, rs[|rs| - 1])
  }

  /** The sum of the counts is not negative when no count is. */
  lemma {:induction false} CountsOverNonNegative(cfg: Config, rs: seq<Role>)
    requires forall i :: 0 <= i < |rs| ==> Count(cfg, rs[i]) >= 0
    ensures CountsOver(cfg, rs) >= 0
  {
    if rs != [] {
      CountsOverNonNegative(cfg, rs[..|rs| - 1]);
    }
  }

  /** The prefixes of `Roles` that the recursive definitions unfold to. */
  lemma RolesPrefixes()
    ensures Roles[..6] == Roles && Roles[..1][..0] == []
    ensures Roles[..6][..5] == Roles[..5] && Roles[..5][..4] == Roles[..4] && Roles[..4][..3] == Roles[..3]
    ensures Roles[..3][..2] == Roles[..2] && Roles[..2][..1] == Roles[..1]
  {
  }

  /** Every role is visited: the loop over `Roles` covers the whole enumeration. */
  lemma AllRolesListed()
    ensures forall role :: role in Roles
  {
    forall role ensures role in Roles {
      match role
      case MlEngineer => assert Roles[0] == role;
      case AiResearcher => assert Roles[1] == role;
      case DataScientist => assert Roles[2] == role;
      case MlopsEngineer => assert Roles[3] == role;
      case DevopsEngineer => assert Roles[4] == role;
      case ProductManager => assert Roles[5] == role;
    }
  }

  /** Unrolls the sum of the counts over the six roles, one role at a time. */
  lemma CountsOverRoles(cfg: Config)
    ensures CountsOver(cfg, Roles) == cfg.mlEngineers + cfg.aiResearchers + cfg.dataScientists
                                      + cfg.mlopsEngineers + cfg.devopsEngineers + cfg.productManagers
  {
    RolesPrefixes();
    assert CountsOver(cfg, Roles[..1]) == cfg.mlEngineers;
    assert CountsOver(cfg, Roles[..2]) == CountsOver(cfg, Roles[..1]) + cfg.aiResearchers;
    assert CountsOver(cfg, Roles[..3]) == CountsOver(cfg, Roles[..2]) + cfg.dataScientists;
    assert CountsOver(cfg, Roles[..4]) == CountsOver(cfg, Roles[..3]) + cfg.mlopsEngineers;
    assert CountsOver(cfg, Roles[..5]) == CountsOver(cfg, Roles[..4]) + cfg.devopsEngineers;
  }

  /** The monthly total over all roles is the sum of the six roles' contributions. */
  lemma MonthlyOverRoles(cfg: Config)
    ensures MonthlyOver(cfg, Roles)
      == Contribution(cfg, MlEngineer) + Contribution(cfg, AiResearcher) + Contribution(cfg, DataScientist)
         + Contribution(cfg, MlopsEngineer) + Contribution(cfg, DevopsEngineer) + Contribution(cfg, ProductManager)
  {
    RolesPrefixes();
    assert MonthlyOver(cfg, Roles[..1]) == Contribution(cfg, MlEngineer);
    assert MonthlyOver(cfg, Roles[..2]) == MonthlyOver(cfg, Roles[..1]) + Contribution(cfg, AiResearcher);
    assert MonthlyOver(cfg, Roles[..3]) == MonthlyOver(cfg, Roles[..2]) + Contribution(cfg, DataScientist);
    assert MonthlyOver(cfg, Roles[..4]) == MonthlyOver(cfg, Roles[..3]) + Contribution(cfg, MlopsEngineer);
    assert MonthlyOver(cfg, Roles[..5]) == MonthlyOver(cfg, Roles[..4]) + Contribution(cfg, DevopsEngineer);
  }

  /**
   * The roles of `rs` with a positive count, in the order visited: the
   * order in which the breakdown's entries are inserted, and so the order
   * in which they are listed.
   */
  function Listed(cfg: Config, rs: seq<Role>): seq<Role>
  {
    if rs == [] then []
    else Listed(cfg, rs[..|rs| - 1]) + (if Count(cfg, rs[|rs| - 1]) > 0 then [rs[|rs| - 1]] else [])
  }

  /** The listed roles are exactly the visited roles with a positive count. */
  lemma {:induction false} ListedMembers(cfg: Config, rs: seq<Role>)
    ensures forall role :: role in Listed(cfg, rs) <==> role in rs && Count(cfg, role) > 0
  {
    if rs != [] {
      ListedMembers(cfg, rs[..|rs| - 1]);
      assert rs == rs[..|rs| - 1] + [rs[|rs| - 1]];
    }
  }

  /** A role's position in the fixed visiting order. */
  function RoleIndex(role: Role): (i: nat)
    ensures i < |Roles| && Roles[i] == role
  {
    match role
    case MlEngineer => 0
    case AiResearcher => 1
    case DataScientist => 2
    case MlopsEngineer => 3
    case DevopsEngineer => 4
    case ProductManager => 5
  }

  /** No role appears twice in the visiting order. */
  lemma RolesDistinct(k: nat)
    requires k < |Roles|
    ensures RoleIndex(Roles[k]) == k
  {
  }

  /**
   * Over the first `k` roles, the listed roles come strictly in the
   * visiting order, so none is listed twice.
   */
  lemma {:induction false} ListedInOrderOver(cfg: Config, k: nat)
    requires k <= |Roles|
    ensures forall i :: 0 <= i < |Listed(cfg, Roles[..k])| ==> RoleIndex(Listed(cfg, Roles[..k])[i]) < k
    ensures forall i, j :: 0 <= i < j < |Listed(cfg, Roles[..k])| ==>
              RoleIndex(Listed(cfg, Roles[..k])[i]) < RoleIndex(Listed(cfg, Roles[..k])[j])
  {
    if k > 0 {
      ListedInOrderOver(cfg, k - 1);
      RolesDistinct(k - 1);
      var prev, l := Listed(cfg, Roles[..k - 1]), Listed(cfg, Roles[..k]);
      assert Roles[..k][..k - 1] == Roles[..k - 1];
      if Count(cfg, Roles[k - 1]) > 0 {
        assert l == prev + [Roles[k - 1]];
      } else {
        assert l == prev;
      }
    }
  }

  /**
   * The breakdown lists its roles in the fixed visiting order, filtered to
   * positive counts: each key of the breakdown once, and nothing else.
   */
  lemma ListedInRoleOrder(cfg: Config)
    ensures var l := Listed(cfg, Roles);
      && (forall role :: role in l <==> role in Breakdown(cfg))
      && (forall i, j :: 0 <= i < j < |l| ==> RoleIndex(l[i]) < RoleIndex(l[j]))
  {
    ListedMembers(cfg, Roles);
    ListedInOrderOver(cfg, |Roles|);
    assert Roles[..|Roles|] == Roles;
  }

  /** Team size: the sum of all six head counts, whatever their sign. */
  function TeamSize(cfg: Config): (n: int)
    ensures n == cfg.mlEngineers + cfg.aiResearchers + cfg.dataScientists
                 + cfg.mlopsEngineers + cfg.devopsEngineers + cfg.productManagers
  {
    CountsOverRoles(cfg);
    CountsOver(cfg, Roles)
  }

  /** The per-role breakdown: one entry for each role whose count is positive, and no other. */
  function Breakdown(cfg: Config): (m: map<Role, RoleCost>)
    ensures forall role :: role in m <==> Count(cfg, role) > 0
    ensures forall role :: role in m ==> m[role] == Entry(cfg, role)
  {
    AllRolesListed();
    map role | role in Roles && Count(cfg, role) > 0 :: Entry(cfg, role)
  }

  /** Monthly cost divided by team size; undefined for an empty team. */
  function AverageCost(monthly: real, teamSize: int): (avg: Option<real>)
    ensures avg.None? <==> teamSize == 0
    ensures avg.Some? ==> avg.value * teamSize as real == monthly
  {
    if teamSize == 0 then None else Some(monthly / teamSize as real)
  }

  // ---------------------------------------------------------------------
  // The calculation

  lemma MonthlyOverStep(cfg: Config, rs: seq<Role>, role: Role)
    ensures MonthlyOver(cfg, rs + [role]) == MonthlyOver(cfg, rs) + Contribution(cfg, role)
  {
    assert (rs + [role])[..|rs|] == rs;
  }

  lemma ListedStep(cfg: Config, rs: seq<Role>, role: Role)
    ensures Listed(cfg, rs + [role]) == Listed(cfg, rs) + (if Count(cfg, role) > 0 then [role] else [])
  {
    assert (rs + [role])[..|rs|] == rs;
  }

  method CalculateCosts(cfg: Config) returns (r: Result)
    ensures r.monthly == MonthlyOver(cfg, Roles)
    ensures r.roles == Breakdown(cfg)
    ensures forall role :: role in r.roles <==> Count(cfg, role) > 0
    ensures r.roleOrder == Listed(cfg, Roles)
    ensures forall role :: role in r.roleOrder <==> role in r.roles
    ensures r.total == r.monthly * cfg.projectDuration as real
    ensures r.teamSize == TeamSize(cfg)
    ensures r.avgCostPerPerson == AverageCost(r.monthly, r.teamSize)
  {
    var totalMonthlyCost := 0.0;
    var roleBreakdown: map<Role, RoleCost> := map[];
    var roleOrder: seq<Role> := [];
    var i := 0;
    while i < |Roles|
      invariant 0 <= i <= |Roles|
      invariant totalMonthlyCost == MonthlyOver(cfg, Roles[..i])
      invariant forall role :: role in roleBreakdown <==> role in Roles[..i] && Count(cfg, role) > 0
      invariant forall role :: role in roleBreakdown ==> roleBreakdown[role] == Entry(cfg, role)
      invariant roleOrder == Listed(cfg, Roles[..i])
    {
      var role := Roles[i];
      var count := Count(cfg, role);
      assert Roles[..i + 1] == Roles[..i] + [role];
      MonthlyOverStep(cfg, Roles[..i], role);
      ListedStep(cfg, Roles[..i], role);
      if count > 0 {
        // the pricing of one role (fulltime or freelance, then the discount) is RoleTotal
        var cost := RoleTotal(cfg, role);
        totalMonthlyCost := totalMonthlyCost + cost;
        roleBreakdown := roleBreakdown[role := RoleCost(RoleName(role), count, UnitCost(cfg, role), cost)];
        roleOrder := roleOrder + [role];
      }
      i := i + 1;
    }
    assert Roles[..i] == Roles;
    AllRolesListed();
    assert roleBreakdown == Breakdown(cfg);
    ListedMembers(cfg, Roles);
    var totalProjectCost := totalMonthlyCost * cfg.projectDuration as real;
    var totalTeamSize := TeamSize(cfg);
    r := Result(totalMonthlyCost, totalProjectCost, totalTeamSize, roleBreakdown, roleOrder,
                AverageCost(totalMonthlyCost, totalTeamSize));
  }

  // ---------------------------------------------------------------------
  // Properties

  /** The sum of the total costs of the entries of `m` whose keys appear in `rs`. */
  function SumTotalCost(m: map<Role, RoleCost>, rs: seq<Role>): real
  {
    if rs == [] then 0.0
    else SumTotalCost(m, rs[..|rs| - 1]) + (var last := rs[|rs| - 1]; if last in m then m[last].totalCost else 0.0)
  }

  /** The sum of the counts of the entries of `m` whose keys appear in `rs`. */
  function SumCount(m: map<Role, RoleCost>, rs: seq<Role>): int
  {
    if rs == [] then 0
    else SumCount(m, rs[..|rs| - 1]) + (var last := rs[|rs| - 1]; if last in m then m[last].count else 0)
  }

  lemma {:induction false} MonthlyOverIsSumOfEntries(cfg: Config, rs: seq<Role>)
    ensures MonthlyOver(cfg, rs) == SumTotalCost(Breakdown(cfg), rs)
  {
    if rs != [] {
      MonthlyOverIsSumOfEntries(cfg, rs[..|rs| - 1]);
    }
  }

  /**
   * The monthly total is the sum of totalCost over the breakdown's entries
   * (`Roles` lists every role once, so every key of the map once).
   */
  lemma MonthlyIsSumOfBreakdown(cfg: Config)
    ensures MonthlyOver(cfg, Roles) == SumTotalCost(Breakdown(cfg), Roles)
  {
    MonthlyOverIsSumOfEntries(cfg, Roles);
  }

  lemma {:induction false} CountsOverIsSumOfEntries(cfg: Config, rs: seq<Role>)
    requires forall role :: Count(cfg, role) >= 0
    ensures CountsOver(cfg, rs) == SumCount(Breakdown(cfg), rs)
  {
    if rs != [] {
      CountsOverIsSumOfEntries(cfg, rs[..|rs| - 1]);
    }
  }

  /** With no negative head count, the counts recorded in the breakdown add up to the team size. */
  lemma BreakdownCountsMatchTeamSize(cfg: Config)
    requires forall role :: Count(cfg, role) >= 0
    ensures SumCount(Breakdown(cfg), Roles) == TeamSize(cfg)
  {
    CountsOverIsSumOfEntries(cfg, Roles);
  }

  /**
   * A negative head count is left out of the breakdown but still summed
   * into the team size: one ML engineer and minus one AI researcher make a
   * team of size 0 whose breakdown lists one person.
   */
  lemma NegativeCountBreaksTeamSize()
    ensures var cfg := Config("rag-system", Us, Fulltime, 6, 1, -1, 0, 0, 0, 0, false);
      && TeamSize(cfg) == 0
      && Breakdown(cfg).Keys == {MlEngineer}
      && Breakdown(cfg)[MlEngineer].count == 1
      && AverageCost(MonthlyOver(cfg, Roles), TeamSize(cfg)) == None
  {
  }

  lemma ScaledProduct(k: real, a: real, b: real)
    ensures (k * a) * b == k * (a * b)
  {
  }

  /** Remote work scales one role's total cost by exactly 0.85 and leaves its unit cost alone. */
  lemma RoleRemoteDiscount(cfg: Config, role: Role)
    ensures RoleTotal(cfg.(remoteWork := true), role) == 0.85 * RoleTotal(cfg.(remoteWork := false), role)
    ensures UnitCost(cfg.(remoteWork := true), role) == UnitCost(cfg.(remoteWork := false), role)
  {
  }

  lemma {:induction false} MonthlyOverScales(cfg: Config, rs: seq<Role>)
    ensures MonthlyOver(cfg.(remoteWork := true), rs) == 0.85 * MonthlyOver(cfg.(remoteWork := false), rs)
  {
    if rs != [] {
      MonthlyOverScales(cfg, rs[..|rs| - 1]);
      RoleRemoteDiscount(cfg, rs[|rs| - 1]);
    }
  }

  /** Remote work changes neither which roles the breakdown lists nor their unit costs, and scales their totals by 0.85. */
  lemma BreakdownRemoteDiscount(cfg: Config)
    ensures var on, off := Breakdown(cfg.(remoteWork := true)), Breakdown(cfg.(remoteWork := false));
      && on.Keys == off.Keys
      && (forall role :: role in on ==>
            on[role].totalCost == 0.85 * off[role].totalCost && on[role].unitCost == off[role].unitCost)
  {
    forall role
      ensures RoleTotal(cfg.(remoteWork := true), role) == 0.85 * RoleTotal(cfg.(remoteWork := false), role)
      ensures UnitCost(cfg.(remoteWork := true), role) == UnitCost(cfg.(remoteWork := false), role)
    {
      RoleRemoteDiscount(cfg, role);
    }
  }

  /**
   * Working remotely scales the monthly and project totals by exactly 0.85
   * (and, by BreakdownRemoteDiscount, every role's total cost).
   */
  lemma RemoteDiscount(cfg: Config)
    ensures var on, off := cfg.(remoteWork := true), cfg.(remoteWork := false);
      && MonthlyOver(on, Roles) == 0.85 * MonthlyOver(off, Roles)
      && MonthlyOver(on, Roles) * cfg.projectDuration as real
         == 0.85 * (MonthlyOver(off, Roles) * cfg.projectDuration as real)
  {
    MonthlyOverScales(cfg, Roles);
    ScaledProduct(0.85, MonthlyOver(cfg.(remoteWork := false), Roles), cfg.projectDuration as real);
  }

  /** One role's contribution to the monthly total does not look at the project type. */
  lemma ContributionIgnoresProjectType(cfg: Config, projectType: string, role: Role)
    ensures Contribution(cfg.(projectType := projectType), role) == Contribution(cfg, role)
  {
  }

  /** One role's breakdown entry does not look at the project type. */
  lemma EntryIgnoresProjectType(cfg: Config, projectType: string, role: Role)
    ensures Entry(cfg.(projectType := projectType), role) == Entry(cfg, role)
  {
  }

  lemma {:induction false} ProjectTypeIrrelevantOver(cfg: Config, projectType: string, rs: seq<Role>)
    ensures MonthlyOver(cfg.(projectType := projectType), rs) == MonthlyOver(cfg, rs)
  {
    if rs != [] {
      ProjectTypeIrrelevantOver(cfg, projectType, rs[..|rs| - 1]);
      ContributionIgnoresProjectType(cfg, projectType, rs[|rs| - 1]);
    }
  }

  /** The project type is informational: it changes nothing that is calculated. */
  lemma ProjectTypeIrrelevant(cfg: Config, projectType: string)
    ensures var other := cfg.(projectType := projectType);
      && MonthlyOver(other, Roles) == MonthlyOver(cfg, Roles)
      && Breakdown(other) == Breakdown(cfg)
      && TeamSize(other) == TeamSize(cfg)
  {
    ProjectTypeIrrelevantOver(cfg, projectType, Roles);
    forall role ensures Entry(cfg.(projectType := projectType), role) == Entry(cfg, role) {
      EntryIgnoresProjectType(cfg, projectType, role);
    }
  }

  /** The form's initial configuration. */
  function DefaultConfig(): (cfg: Config)
    ensures forall role :: Count(cfg, role) > 0
  {
    Config("rag-system", Us, Fulltime, 6, 2, 1, 1, 1, 1, 1, false)
  }

  /** The figures the calculator shows for its initial configuration. */
  lemma DefaultScenario()
    ensures var cfg := DefaultConfig();
      && TeamSize(cfg) == 7
      && MonthlyOver(cfg, Roles) * 12.0 == 1184000.0
      && MonthlyOver(cfg, Roles) * cfg.projectDuration as real == 592000.0
      && Breakdown(cfg).Keys == {MlEngineer, AiResearcher, DataScientist, MlopsEngineer, DevopsEngineer, ProductManager}
      && Breakdown(cfg)[MlEngineer].totalCost * 6.0 == 158000.0
      && AverageCost(MonthlyOver(cfg, Roles), TeamSize(cfg)).Some?
  {
    var cfg := DefaultConfig();
    MonthlyOverRoles(cfg);
    assert Contribution(cfg, MlEngineer) * 12.0 == 316000.0;
    assert Contribution(cfg, AiResearcher) * 12.0 == 258000.0;
    assert Contribution(cfg, DataScientist) * 12.0 == 140000.0;
    assert Contribution(cfg, MlopsEngineer) * 12.0 == 155000.0;
    assert Contribution(cfg, DevopsEngineer) * 12.0 == 135000.0;
    assert Contribution(cfg, ProductManager) * 12.0 == 180000.0;
  }
}
