/** The stored records of the fair and the two integer enums with their `String()` tables. */
module Models {
  import opened Common

  /** models.StandType: a Go `int`; only 0, 1 and 2 have names. */
  type StandType = int

  const StandNourriture: StandType := 0
  const StandBoisson: StandType := 1
  const StandActivite: StandType := 2

  /** `StandType.String()`: indexes a three-name array, so any other value panics. */
  function StandTypeString(t: StandType): string
    requires 0 <= t < 3
  {
    ["NOURRITURE", "BOISSON", "ACTIVITES"][t]
  }

  /** models.Role: a Go `int`; only 0 to 4 have names. */
  type Role = int

  const RoleEleve: Role := 0
  const RoleParent: Role := 1
  const RoleTeneurStand: Role := 2
  const RoleOrganisateur: Role := 3
  const RoleAdmin: Role := 4

  /** `Role.String()`: indexes a five-name array, so any other value panics. */
  function RoleString(r: Role): string
    requires 0 <= r < 5
  {
    ["ELEVE", "PARENT", "TENEUR_STAND", "ORGANISATEUR", "ADMIN"][r]
  }

  /** The three values of models.TransactionType the summary adds up. */
  const TransactionTypeAchat: string := "ACHAT"
  const TransactionTypeUtilisation: string := "UTILISATION"
  const TransactionTypeTransfert: string := "TRANSFERT"

  /** Fixed ticket price of the tombola, in jetons. */
  const PrixTicket: int := 2

  /** Loyalty points per unit bought at an activity stand. */
  const PointsPerUnit: int := 10

  datatype User = User(id: nat, name: string, email: string, roles: Role, soldeJetons: int)

  /** A parent account; `pointsAccumules` is the counter PayWithJetons credits. */
  datatype Parent = Parent(id: nat, userId: nat, pointsAccumules: int)

  datatype Eleve = Eleve(id: nat, userId: nat, parentId: Option<nat>, pointsAccumules: int)

  /** Organisateur and TeneurStand rows: an id and the user they belong to. */
  datatype RoleRecord = RoleRecord(id: nat, userId: nat)

  datatype Stand = Stand(
    id: nat, nom: string, standType: StandType, kermesseId: nat, teneurId: nat,
    positionX: int, positionY: int, jetonsCollectes: int, pointsAttribues: int)

  datatype Stock = Stock(id: nat, standId: nat, nomProduit: string, quantite: int, prixEnJetons: int)

  datatype Tombola = Tombola(id: nat, nom: string, kermesseId: nat)

  datatype Lot = Lot(id: nat, tombolaId: nat, nom: string, description: string)

  datatype Ticket = Ticket(
    id: nat, tombolaId: Option<nat>, userId: nat, numero: string, estGagnant: bool, prixEnJetons: int)

  datatype Gagnant = Gagnant(id: nat, userId: nat, tombolaId: nat, lotId: nat, ticketId: nat)

  /** A ledger entry; `date` is None where the handler leaves Go's zero time. */
  datatype JetonTransaction = JetonTransaction(
    id: nat, userId: nat, montant: int, kind: string, description: string,
    standId: Option<nat>, date: Option<int>, paiementId: string)
}
