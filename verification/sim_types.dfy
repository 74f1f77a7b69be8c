/** The simulation's records (`types.ts`): the game state, customers and
    employees, and their two closed enumerations. */
module SimTypes {
  datatype CustomerKind = Economic | Demanding | Impulsive | Loyal | Wholesaler

  datatype EmployeeRole = Cashier | Stocker | Butcher | Baker | Warehouse | Manager | Cleaning | Security | Driver

  /** The kinds in the order the step's spawn table lists them. */
  const CustomerKinds: seq<CustomerKind> := [Economic, Demanding, Impulsive, Loyal, Wholesaler]

  const EmployeeRoles: seq<EmployeeRole> :=
    [Cashier, Stocker, Butcher, Baker, Warehouse, Manager, Cleaning, Security, Driver]

  datatype Customer = Customer(id: string, x: real, y: real, kind: CustomerKind, satisfaction: real, inQueue: bool)

  datatype Employee = Employee(id: string, x: real, y: real, role: EmployeeRole, productivity: real, fatigue: real)

  /** `tick` and `gameTime` are whole numbers of steps. */
  datatype GameState = GameState(
    tick: int, gameTime: int,
    customers: seq<Customer>, employees: seq<Employee>,
    cleanliness: real, reputation: real)

  /** Exactly five customer kinds: the table lists each once and misses none. */
  lemma KindsEnumerated(k: CustomerKind)
    ensures |CustomerKinds| == 5
    ensures forall i, j :: 0 <= i < j < |CustomerKinds| ==> CustomerKinds[i] != CustomerKinds[j]
    ensures k in CustomerKinds
  {
  }

  /** Exactly nine employee roles. */
  lemma RolesEnumerated(r: EmployeeRole)
    ensures |EmployeeRoles| == 9
    ensures forall i, j :: 0 <= i < j < |EmployeeRoles| ==> EmployeeRoles[i] != EmployeeRoles[j]
    ensures r in EmployeeRoles
  {
  }
}
